/**
 The one endpoint list of a peer, derived from what its discovery sources observed. Hash maps
 are iterated in an arbitrary order; the view is the same for every order.
 */
module EndpointView {
  import opened Wrappers
  import opened Order
  import opened Routing

  datatype Observation = Observation(
    address: nat, routeClass: RouteClass, lastSeen: nat, reachability: Reachability)

  type Observations = map<Source, seq<Observation>>

  /** A source's observation of an address. */
  predicate Seen(obs: Observations, s: Source, o: Observation, address: nat)
  {
    s in obs && o in obs[s] && o.address == address
  }

  ghost predicate Observed(obs: Observations, address: nat)
  {
    exists s, o :: Seen(obs, s, o, address)
  }

  // ----- what the view must say ------------------------------------------

  /** The better route class, then the later sighting, then the lesser source. */
  function CompareObserved(s: Source, o: Observation, t: Source, q: Observation): Ordering
  {
    Then(CompareNat(RouteRank(o.routeClass), RouteRank(q.routeClass)),
         Then(CompareNat(q.lastSeen, o.lastSeen), CompareSources(s, t)))
  }

  ghost predicate IsBest(obs: Observations, s: Source, o: Observation, address: nat)
  {
    && Seen(obs, s, o, address)
    && forall t, q :: Seen(obs, t, q, address) ==> CompareObserved(s, o, t, q) != GT
  }

  ghost predicate IsNewest(obs: Observations, time: nat, address: nat)
  {
    && (exists s, o :: Seen(obs, s, o, address) && o.lastSeen == time)
    && (forall s, o :: Seen(obs, s, o, address) ==> o.lastSeen <= time)
  }

  /** Source and class of the best observation, time of the newest. */
  ghost predicate Describes(obs: Observations, e: Endpoint)
  {
    && (exists o :: IsBest(obs, e.source, o, e.address) && o.routeClass == e.routeClass)
    && IsNewest(obs, e.lastSeen, e.address)
  }

  predicate Increasing(xs: seq<nat>) { forall i, j :: 0 <= i < j < |xs| ==> xs[i] < xs[j] }

  function Addresses(endpoints: seq<Endpoint>): (r: seq<nat>)
    ensures |r| == |endpoints| && forall i :: 0 <= i < |r| ==> r[i] == endpoints[i].address
  {
    seq(|endpoints|, i requires 0 <= i < |endpoints| => endpoints[i].address)
  }

  /** The history-free part of the view: the sorted observed addresses, each described. */
  ghost predicate Derived(obs: Observations, endpoints: seq<Endpoint>)
  {
    && Increasing(Addresses(endpoints))
    && (forall a :: a in Addresses(endpoints) <==> Observed(obs, a))
    && (forall i :: 0 <= i < |endpoints| ==> Describes(obs, endpoints[i]))
  }

  function Find(endpoints: seq<Endpoint>, address: nat): (r: Option<Endpoint>)
    ensures r.Some? ==> r.value in endpoints && r.value.address == address
    ensures r.None? ==> forall i :: 0 <= i < |endpoints| ==> endpoints[i].address != address
  {
    if endpoints == [] then None
    else if endpoints[|endpoints| - 1].address == address then Some(endpoints[|endpoints| - 1])
    else Find(endpoints[..|endpoints| - 1], address)
  }

  ghost predicate SeenReachable(obs: Observations, address: nat)
  {
    exists s, o :: Seen(obs, s, o, address) && o.reachability == Reachable
  }

  /** Reachability also depends on what was known before. */
  function ReachabilityNow(reachable: bool, previous: Option<Endpoint>, newest: nat): Reachability
  {
    if reachable then Reachable
    else match previous
      case None => Unknown
      case Some(e) => if e.reachability == Unreachable && newest > e.lastSeen then Unknown else e.reachability
  }

  ghost predicate Reconciled(obs: Observations, previous: seq<Endpoint>, endpoints: seq<Endpoint>)
  {
    && Derived(obs, endpoints)
    && forall i :: 0 <= i < |endpoints| ==>
         endpoints[i].reachability ==
         ReachabilityNow(SeenReachable(obs, endpoints[i].address), Find(previous, endpoints[i].address),
                       endpoints[i].lastSeen)
  }

  // ----- there is only one such view ------------------------------------

  lemma CompareObservedLaws(
    s: Source, o: Observation, t: Source, q: Observation, u: Source, w: Observation)
    ensures CompareObserved(t, q, s, o) == Flip(CompareObserved(s, o, t, q))
    ensures CompareObserved(s, o, t, q) == EQ ==> s == t && o.routeClass == q.routeClass
    ensures Consistent(CompareObserved(s, o, t, q), CompareObserved(t, q, u, w), CompareObserved(s, o, u, w))
  {
    hide CompareSources;
    CompareSourcesLaws(s, t, u);
  }

  function Elements(a: seq<nat>): set<nat> { set x | x in a }

  lemma ButLast(a: seq<nat>)
    requires Increasing(a) && a != []
    ensures Increasing(a[..|a| - 1]) && a[|a| - 1] in Elements(a) && forall x :: x in Elements(a) ==> x <= a[|a| - 1]
    ensures Elements(a[..|a| - 1]) == Elements(a) - {a[|a| - 1]}
  {
    assert a == a[..|a| - 1] + [a[|a| - 1]];
  }

  lemma NoElements(a: seq<nat>)
    ensures Elements(a) == {} <==> a == []
  {
    if a != [] {
      assert a[0] in Elements(a);
    }
  }

  lemma {:induction false} SameElementsSameOrder(a: seq<nat>, b: seq<nat>)
    requires Increasing(a) && Increasing(b) && Elements(a) == Elements(b)
    ensures a == b
  {
    NoElements(a);
    NoElements(b);
    if a != [] {
      ButLast(a);
      ButLast(b);
      SameElementsSameOrder(a[..|a| - 1], b[..|b| - 1]);
      assert a == a[..|a| - 1] + [a[|a| - 1]] && b == b[..|b| - 1] + [b[|b| - 1]];
    }
  }

  lemma SameDescription(obs: Observations, e: Endpoint, d: Endpoint)
    requires Describes(obs, e) && Describes(obs, d) && e.address == d.address
    ensures e.source == d.source && e.routeClass == d.routeClass && e.lastSeen == d.lastSeen
  {
    var o :| IsBest(obs, e.source, o, e.address) && o.routeClass == e.routeClass;
    var q :| IsBest(obs, d.source, q, d.address) && q.routeClass == d.routeClass;
    CompareObservedLaws(e.source, o, d.source, q, d.source, q);
  }

  /** The view is a function of the observations and the previous view. */
  lemma ViewIsUnique(obs: Observations, previous: seq<Endpoint>, a: seq<Endpoint>, b: seq<Endpoint>)
    requires Reconciled(obs, previous, a) && Reconciled(obs, previous, b)
    ensures a == b
  {
    hide Describes, SeenReachable, Observed;
    assert forall x :: x in Addresses(a) <==> x in Addresses(b);
    SameElementsSameOrder(Addresses(a), Addresses(b));
    forall i | 0 <= i < |a| ensures a[i] == b[i] {
      assert Addresses(a)[i] == Addresses(b)[i];
      SameDescription(obs, a[i], b[i]);
    }
  }

  // ----- what a reader of the view learns -------------------------------

  /** Reachable if some source says so; otherwise as before, but a failure is forgotten at a newer sighting. */
  lemma ViewReachability(obs: Observations, previous: seq<Endpoint>, endpoints: seq<Endpoint>, i: nat)
    requires Reconciled(obs, previous, endpoints) && i < |endpoints|
    ensures var (e, before) := (endpoints[i], Find(previous, endpoints[i].address));
            && (e.reachability == Reachable <==>
                  SeenReachable(obs, e.address) || (before.Some? && before.value.reachability == Reachable))
            && (e.reachability == Unreachable <==>
                  !SeenReachable(obs, e.address) && before.Some? && before.value.reachability == Unreachable &&
                  e.lastSeen <= before.value.lastSeen)
  {
    hide Derived, SeenReachable;
  }

  /** The class shown is the best any source reports; the source shown reports it latest, the least one on a tie. */
  lemma ViewIsBest(obs: Observations, e: Endpoint, s: Source, o: Observation)
    requires Describes(obs, e) && Seen(obs, s, o, e.address)
    ensures NoWorseClass(e.routeClass, o.routeClass) && o.lastSeen <= e.lastSeen
    ensures exists b ::
              && Seen(obs, e.source, b, e.address) && b.routeClass == e.routeClass
              && (o.routeClass == e.routeClass ==>
                    o.lastSeen < b.lastSeen || (o.lastSeen == b.lastSeen && NoLaterSource(e.source, s)))
  {
    hide CompareSources, NoLaterSource;
    var b :| IsBest(obs, e.source, b, e.address) && b.routeClass == e.routeClass;
    SourcesByText(e.source, s);
    assert CompareObserved(e.source, b, s, o) != GT;
  }

  lemma SourcesByText(a: Source, b: Source)
    ensures CompareSources(a, b) != GT <==> NoLaterSource(a, b)
  {
  }

  // ----- reconcile_endpoints ---------------------------------------------

  function InsertAddress(xs: seq<nat>, a: nat): seq<nat>
  {
    if xs == [] || a < xs[0] then [a] + xs
    else if a == xs[0] then xs
    else [xs[0]] + InsertAddress(xs[1..], a)
  }

  lemma {:induction false} InsertAddressSorted(xs: seq<nat>, a: nat)
    requires Increasing(xs)
    ensures Increasing(InsertAddress(xs, a)) && forall x :: x in InsertAddress(xs, a) <==> x == a || x in xs
  {
    if xs != [] && a > xs[0] {
      InsertAddressSorted(xs[1..], a);
      var rest := InsertAddress(xs[1..], a);
      assert xs == [xs[0]] + xs[1..];
      forall j | 0 <= j < |rest| ensures xs[0] < rest[j] {
        assert rest[j] in rest;
      }
    }
  }

  /** The observed addresses, sorted, each once. */
  method CollectAddresses(obs: Observations) returns (addresses: seq<nat>)
    ensures Increasing(addresses) && forall a :: a in addresses <==> Observed(obs, a)
  {
    addresses := [];
    var pending := obs.Keys;
    while pending != {}
      invariant pending <= obs.Keys && Increasing(addresses)
      invariant forall a :: a in addresses <==> exists s, o :: s !in pending && Seen(obs, s, o, a)
    {
      var s :| s in pending;
      ghost var before := addresses;
      for i := 0 to |obs[s]|
        invariant Increasing(addresses)
        invariant forall a :: a in addresses <==> a in before || exists k :: 0 <= k < i && obs[s][k].address == a
      {
        InsertAddressSorted(addresses, obs[s][i].address);
        addresses := InsertAddress(addresses, obs[s][i].address);
      }
      forall a ensures a in addresses <==> exists t, o :: t !in pending - {s} && Seen(obs, t, o, a) {
        if a in addresses && a !in before {
          var k :| 0 <= k < |obs[s]| && obs[s][k].address == a;
          assert Seen(obs, s, obs[s][k], a);
        }
        if t, o :| t !in pending - {s} && Seen(obs, t, o, a) {
          if t == s {
            var k :| 0 <= k < |obs[s]| && obs[s][k] == o;
          }
        }
      }
      pending := pending - {s};
    }
  }

  datatype Sighting = Sighting(source: Source, item: Observation)

  /** The observations of one address, in some order. */
  method CollectSightings(obs: Observations, address: nat) returns (found: seq<Sighting>)
    ensures forall s, o :: Sighting(s, o) in found <==> Seen(obs, s, o, address)
  {
    found := [];
    var pending := obs.Keys;
    while pending != {}
      invariant pending <= obs.Keys
      invariant forall s, o :: Sighting(s, o) in found <==> s !in pending && Seen(obs, s, o, address)
    {
      var s :| s in pending;
      ghost var before := found;
      for i := 0 to |obs[s]|
        invariant forall t, o :: Sighting(t, o) in found <==>
                    Sighting(t, o) in before || (t == s && o in obs[s][..i] && o.address == address)
      {
        assert obs[s][..i + 1] == obs[s][..i] + [obs[s][i]];
        if obs[s][i].address == address {
          found := found + [Sighting(s, obs[s][i])];
        }
      }
      assert obs[s][..|obs[s]|] == obs[s];
      pending := pending - {s};
    }
  }

  function CompareSightings(a: Sighting, b: Sighting): Ordering
  {
    CompareObserved(a.source, a.item, b.source, b.item)
  }

  /** The best sighting, the newest time, and whether any was reachable. */
  method Summarize(found: seq<Sighting>) returns (best: Sighting, newest: nat, reachable: bool)
    requires found != []
    ensures best in found && forall x :: x in found ==> CompareSightings(best, x) != GT
    ensures exists x :: x in found && x.item.lastSeen == newest
    ensures forall x :: x in found ==> x.item.lastSeen <= newest
    ensures reachable <==> exists x :: x in found && x.item.reachability == Reachable
  {
    hide CompareObserved;
    best, newest, reachable := found[0], found[0].item.lastSeen, found[0].item.reachability == Reachable;
    CompareObservedLaws(best.source, best.item, best.source, best.item, best.source, best.item);
    ghost var latest := 0;
    for i := 1 to |found|
      invariant best in found[..i] && forall k :: 0 <= k < i ==> CompareSightings(best, found[k]) != GT
      invariant latest < i && found[latest].item.lastSeen == newest
      invariant forall k :: 0 <= k < i ==> found[k].item.lastSeen <= newest
      invariant reachable <==> exists k :: 0 <= k < i && found[k].item.reachability == Reachable
    {
      var next := found[i];
      if CompareSightings(next, best) == LT {
        forall k | 0 <= k < i ensures CompareSightings(next, found[k]) != GT {
          CompareObservedLaws(next.source, next.item, best.source, best.item, found[k].source, found[k].item);
        }
        CompareObservedLaws(next.source, next.item, next.source, next.item, next.source, next.item);
        best := next;
      } else {
        CompareObservedLaws(next.source, next.item, best.source, best.item, best.source, best.item);
      }
      if next.item.lastSeen > newest {
        newest, latest := next.item.lastSeen, i;
      }
      reachable := reachable || next.item.reachability == Reachable;
    }
  }

  /** The endpoint of one observed address. */
  method DescribeAddress(obs: Observations, address: nat, previous: Option<Endpoint>) returns (e: Endpoint)
    requires Observed(obs, address)
    ensures e.address == address && Describes(obs, e)
    ensures e.reachability == ReachabilityNow(SeenReachable(obs, address), previous, e.lastSeen)
  {
    hide CompareObserved, ReachabilityNow;
    var found := CollectSightings(obs, address);
    assert found != [] by {
      var s, o :| Seen(obs, s, o, address);
      assert Sighting(s, o) in found;
    }
    var best, newest, reachable := Summarize(found);
    e := Endpoint(address, best.source, best.item.routeClass, newest, ReachabilityNow(reachable, previous, newest));
    assert Sighting(best.source, best.item) in found;
    assert IsBest(obs, best.source, best.item, address) by {
      forall t, q | Seen(obs, t, q, address) ensures CompareObserved(best.source, best.item, t, q) != GT {
        assert Sighting(t, q) in found;
      }
    }
    assert IsNewest(obs, newest, address) by {
      var x :| x in found && x.item.lastSeen == newest;
      assert Sighting(x.source, x.item) in found;
      forall s, o | Seen(obs, s, o, address) ensures o.lastSeen <= newest {
        assert Sighting(s, o) in found;
      }
    }
    assert reachable <==> SeenReachable(obs, address) by {
      if reachable {
        var x :| x in found && x.item.reachability == Reachable;
        assert Sighting(x.source, x.item) in found;
      }
      if SeenReachable(obs, address) {
        var s, o :| Seen(obs, s, o, address) && o.reachability == Reachable;
        assert Sighting(s, o) in found;
      }
    }
  }

  /** `reconcile_endpoints`. */
  method ReconcileEndpoints(obs: Observations, previous: seq<Endpoint>) returns (endpoints: seq<Endpoint>)
    ensures Reconciled(obs, previous, endpoints)
  {
    hide Describes, ReachabilityNow, SeenReachable, Observed;
    var addresses := CollectAddresses(obs);
    endpoints := [];
    for i := 0 to |addresses|
      invariant |endpoints| == i
      invariant forall k :: 0 <= k < i ==>
                  && endpoints[k].address == addresses[k] && Describes(obs, endpoints[k])
                  && endpoints[k].reachability ==
                     ReachabilityNow(SeenReachable(obs, addresses[k]), Find(previous, addresses[k]),
                                     endpoints[k].lastSeen)
    {
      assert addresses[i] in addresses;
      var e := DescribeAddress(obs, addresses[i], Find(previous, addresses[i]));
      endpoints := endpoints + [e];
    }
    assert Addresses(endpoints) == addresses;
  }

  // ----- comparing what is visible --------------------------------------

  predicate SameVisible(a: Observation, b: Observation)
  {
    a.address == b.address && a.routeClass == b.routeClass && a.reachability == b.reachability
  }

  predicate UniqueAddresses(items: seq<Observation>)
  {
    forall i, j :: 0 <= i < j < |items| ==> items[i].address != items[j].address
  }

  /** As the source compares: equal lengths, and each item of the left has a match on the right. */
  predicate OneSided(left: seq<Observation>, right: seq<Observation>)
  {
    |left| == |right| && Covered(left, right)
  }

  function AddressSet(items: seq<Observation>): set<nat>
  {
    set i | 0 <= i < |items| :: items[i].address
  }

  lemma {:induction false} AddressSetSize(items: seq<Observation>)
    requires UniqueAddresses(items)
    ensures |AddressSet(items)| == |items|
  {
    if items != [] {
      var front, last := items[..|items| - 1], items[|items| - 1];
      AddressSetSize(front);
      assert AddressSet(items) == AddressSet(front) + {last.address} by {
        forall a | a in AddressSet(items) ensures a in AddressSet(front) + {last.address} {
          var i :| 0 <= i < |items| && items[i].address == a;
          if i < |front| {
            assert front[i].address == a;
          }
        }
      }
      assert last.address !in AddressSet(front);
    } else {
      assert AddressSet(items) == {};
    }
  }

  predicate HasMatch(a: Observation, items: seq<Observation>)
  {
    exists j :: 0 <= j < |items| && SameVisible(a, items[j])
  }

  /** Each item of the left has a match on the right. */
  predicate Covered(left: seq<Observation>, right: seq<Observation>)
  {
    forall i :: 0 <= i < |left| ==> HasMatch(left[i], right)
  }

  lemma CoveredAddresses(left: seq<Observation>, right: seq<Observation>)
    requires Covered(left, right)
    ensures AddressSet(left) <= AddressSet(right)
  {
    forall a | a in AddressSet(left) ensures a in AddressSet(right) {
      var i :| 0 <= i < |left| && left[i].address == a;
      assert HasMatch(left[i], right);
    }
  }

  lemma CoveredBack(left: seq<Observation>, right: seq<Observation>)
    requires UniqueAddresses(right) && Covered(left, right) && AddressSet(left) == AddressSet(right)
    ensures Covered(right, left)
  {
    forall j | 0 <= j < |right| ensures HasMatch(right[j], left) {
      assert right[j].address in AddressSet(left);
      var i :| 0 <= i < |left| && left[i].address == right[j].address;
      assert HasMatch(left[i], right);
      var k :| 0 <= k < |right| && SameVisible(left[i], right[k]);
      assert k == j;
      assert SameVisible(right[j], left[i]);
    }
  }

  /** With unique addresses the one-sided test is an equality: each side covers the other. */
  lemma OneSidedIsEquality(left: seq<Observation>, right: seq<Observation>)
    requires UniqueAddresses(left) && UniqueAddresses(right)
    ensures OneSided(left, right) <==> Covered(left, right) && Covered(right, left)
  {
    hide UniqueAddresses, Covered, AddressSet;
    AddressSetSize(left);
    AddressSetSize(right);
    if Covered(left, right) {
      CoveredAddresses(left, right);
      if |left| == |right| {
        SubsetOfEqualSize(AddressSet(left), AddressSet(right));
        CoveredBack(left, right);
      }
      if Covered(right, left) {
        CoveredAddresses(right, left);
        assert AddressSet(left) == AddressSet(right);
      }
    }
  }

  lemma {:induction false} SubsetOfEqualSize<T>(a: set<T>, b: set<T>)
    requires a <= b && |a| == |b|
    ensures a == b
  {
    if a != {} {
      var x :| x in a;
      SubsetOfEqualSize(a - {x}, b - {x});
      assert a == a - {x} + {x} && b == b - {x} + {x};
    }
  }

  /** Without unique addresses it is not: a repeated item hides a missing one. */
  lemma OneSidedNeedsUniqueness(a: Observation, b: Observation)
    requires a.address != b.address
    ensures OneSided([a, a], [a, b]) && !OneSided([a, b], [a, a])
  {
    assert SameVisible(a, [a, b][0]);
    assert !HasMatch([a, b][1], [a, a]);
  }
}
