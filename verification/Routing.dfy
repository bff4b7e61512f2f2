/** Endpoint ranking and the preferred route. */
module Routing {
  import opened Wrappers
  import opened Order
  import opened Text

  datatype RouteClass = DirectLocal | VerifiedLocal | Overlay | Remembered | Other

  datatype Reachability = Unknown | Reachable | Unreachable

  datatype Source = Source(discovery: string, transport: string, key: string)

  /** Addresses and instants are numbers: only their order matters. */
  datatype Endpoint = Endpoint(
    address: nat, source: Source, routeClass: RouteClass, lastSeen: nat, reachability: Reachability)

  function RouteRank(c: RouteClass): nat
  {
    match c
    case DirectLocal => 0
    case VerifiedLocal => 1
    case Overlay => 2
    case Remembered => 3
    case Other => 4
  }

  function ReachabilityRank(r: Reachability): nat
  {
    match r
    case Reachable => 0
    case Unknown => 1
    case Unreachable => 2
  }

  function CompareSources(a: Source, b: Source): Ordering
  {
    Then(CompareText(a.discovery, b.discovery),
         Then(CompareText(a.transport, b.transport), CompareText(a.key, b.key)))
  }

  /** The comparator chain; the time an endpoint was last seen has no say. */
  function Compare(a: Endpoint, b: Endpoint): Ordering
  {
    Then(CompareNat(ReachabilityRank(a.reachability), ReachabilityRank(b.reachability)),
         Then(CompareNat(RouteRank(a.routeClass), RouteRank(b.routeClass)),
              Then(CompareNat(a.address, b.address), CompareSources(a.source, b.source))))
  }

  lemma CompareSourcesLaws(a: Source, b: Source, c: Source)
    ensures CompareSources(b, a) == Flip(CompareSources(a, b))
    ensures CompareSources(a, b) == EQ <==> a == b
    ensures Consistent(CompareSources(a, b), CompareSources(b, c), CompareSources(a, c))
  {
    CompareTextLaws(a.discovery, b.discovery, c.discovery);
    CompareTextLaws(a.transport, b.transport, c.transport);
    CompareTextLaws(a.key, b.key, c.key);
    ThenConsistent(
      CompareText(a.transport, b.transport), CompareText(b.transport, c.transport),
      CompareText(a.transport, c.transport),
      CompareText(a.key, b.key), CompareText(b.key, c.key), CompareText(a.key, c.key));
  }

  /** The comparator is a total preorder. */
  lemma CompareLaws(a: Endpoint, b: Endpoint, c: Endpoint)
    ensures Compare(b, a) == Flip(Compare(a, b))
    ensures Consistent(Compare(a, b), Compare(b, c), Compare(a, c))
  {
    hide CompareSources;
    CompareSourcesLaws(a.source, b.source, c.source);
  }

  predicate AtMost(a: Endpoint, b: Endpoint) { Compare(a, b) != GT }

  // ----- what the comparison prefers ------------------------------------

  /** An endpoint known to work, then one never tried, then one known to fail. */
  predicate NoWorseReachability(a: Reachability, b: Reachability)
  {
    match a
    case Reachable => true
    case Unknown => b == Unknown || b == Unreachable
    case Unreachable => b == Unreachable
  }

  predicate NoWorseClass(a: RouteClass, b: RouteClass)
  {
    match a
    case DirectLocal => true
    case VerifiedLocal => b != DirectLocal
    case Overlay => b == Overlay || b == Remembered || b == Other
    case Remembered => b == Remembered || b == Other
    case Other => b == Other
  }

  /** By name of the discovery, then of the transport, then by key, each in the order of text. */
  predicate NoLaterSource(a: Source, b: Source)
  {
    if a.discovery != b.discovery then Less(a.discovery, b.discovery)
    else if a.transport != b.transport then Less(a.transport, b.transport)
    else a.key == b.key || Less(a.key, b.key)
  }

  /** What an endpoint must be to stand before another. */
  predicate Preferable(a: Endpoint, b: Endpoint)
  {
    if a.reachability != b.reachability then NoWorseReachability(a.reachability, b.reachability)
    else if a.routeClass != b.routeClass then NoWorseClass(a.routeClass, b.routeClass)
    else a.address < b.address || (a.address == b.address && NoLaterSource(a.source, b.source))
  }

  lemma AtMostIsPreferable(a: Endpoint, b: Endpoint)
    ensures AtMost(a, b) <==> Preferable(a, b)
  {
    hide Less;
  }

  // ----- ranking ---------------------------------------------------------

  /** `e` in front of the first endpoint it does not come after. */
  function Insert(e: Endpoint, sorted: seq<Endpoint>): seq<Endpoint>
  {
    if sorted == [] || AtMost(e, sorted[0]) then [e] + sorted
    else [sorted[0]] + Insert(e, sorted[1..])
  }

  /** `rank_endpoints`: a stable sort of a copy. */
  function Ranked(endpoints: seq<Endpoint>): seq<Endpoint>
  {
    if endpoints == [] then [] else Insert(endpoints[0], Ranked(endpoints[1..]))
  }

  predicate Sorted(s: seq<Endpoint>)
  {
    forall i, j :: 0 <= i < j < |s| ==> AtMost(s[i], s[j])
  }

  /** The endpoints the comparator cannot tell from `e`, in order. */
  function Equals(s: seq<Endpoint>, e: Endpoint): seq<Endpoint>
  {
    if s == [] then [] else (if Compare(s[0], e) == EQ then [s[0]] else []) + Equals(s[1..], e)
  }

  lemma {:induction false} InsertSorted(e: Endpoint, s: seq<Endpoint>)
    requires Sorted(s)
    ensures Sorted(Insert(e, s)) && multiset(Insert(e, s)) == multiset([e]) + multiset(s)
  {
    hide Compare;
    if s == [] {
    } else if AtMost(e, s[0]) {
      forall j | 0 <= j < |s| ensures AtMost(e, s[j]) {
        CompareLaws(e, s[0], s[j]);
      }
    } else {
      var rest := Insert(e, s[1..]);
      InsertSorted(e, s[1..]);
      CompareLaws(e, s[0], e);
      assert s == [s[0]] + s[1..];
      forall j | 0 <= j < |rest| ensures AtMost(s[0], rest[j]) {
        assert rest[j] in multiset(rest);
        assert rest[j] == e || rest[j] in multiset(s[1..]);
      }
    }
  }

  lemma {:induction false} InsertStable(e: Endpoint, s: seq<Endpoint>, x: Endpoint)
    requires Sorted(s)
    ensures Equals(Insert(e, s), x) == Equals([e], x) + Equals(s, x)
  {
    hide Compare;
    if s == [] || AtMost(e, s[0]) {
      assert ([e] + s)[1..] == s;
    } else {
      var rest := Insert(e, s[1..]);
      InsertStable(e, s[1..], x);
      assert ([s[0]] + rest)[1..] == rest;
      CompareLaws(e, x, s[0]);
      CompareLaws(s[0], x, e);
      CompareLaws(e, s[0], x);
      assert !(Compare(e, x) == EQ && Compare(s[0], x) == EQ);
    }
  }

  lemma {:induction false} RankedSorted(endpoints: seq<Endpoint>)
    ensures Sorted(Ranked(endpoints)) && multiset(Ranked(endpoints)) == multiset(endpoints)
  {
    hide Compare, Insert, Sorted;
    if endpoints == [] {
      NothingSorted();
    } else {
      RankedSorted(endpoints[1..]);
      InsertSorted(endpoints[0], Ranked(endpoints[1..]));
      assert endpoints == [endpoints[0]] + endpoints[1..];
    }
  }

  lemma NothingSorted()
    ensures Sorted([])
  {
  }

  lemma {:induction false} RankedStable(endpoints: seq<Endpoint>, x: Endpoint)
    ensures Equals(Ranked(endpoints), x) == Equals(endpoints, x)
  {
    hide Compare, Insert, Sorted;
    if endpoints != [] {
      RankedSorted(endpoints[1..]);
      RankedStable(endpoints[1..], x);
      InsertStable(endpoints[0], Ranked(endpoints[1..]), x);
    }
  }

  /** The ranking is a sorted permutation and keeps the order of what compares equal. */
  lemma RankedIsStableSort(endpoints: seq<Endpoint>)
    ensures Sorted(Ranked(endpoints)) && multiset(Ranked(endpoints)) == multiset(endpoints)
    ensures forall x :: Equals(Ranked(endpoints), x) == Equals(endpoints, x)
  {
    hide Compare, Insert, Sorted, Ranked, Equals;
    RankedSorted(endpoints);
    forall x ensures Equals(Ranked(endpoints), x) == Equals(endpoints, x) {
      RankedStable(endpoints, x);
    }
  }

  /** No endpoint of the ranking is less preferable than one behind it. */
  lemma RankingPrefers(endpoints: seq<Endpoint>, i: nat, j: nat)
    requires i < j < |endpoints|
    ensures |Ranked(endpoints)| == |endpoints|
    ensures var (a, b) := (Ranked(endpoints)[i], Ranked(endpoints)[j]);
            && Preferable(a, b)
            && (a.reachability == Unreachable ==> b.reachability == Unreachable)
            && (b.reachability == Reachable ==> a.reachability == Reachable)
            && (a.reachability == b.reachability ==> NoWorseClass(a.routeClass, b.routeClass))
            && (a.reachability == b.reachability && a.routeClass == b.routeClass ==> a.address <= b.address)
  {
    hide Compare, Insert, Ranked, AtMost;
    RankedSorted(endpoints);
    assert |multiset(Ranked(endpoints))| == |multiset(endpoints)|;
    AtMostIsPreferable(Ranked(endpoints)[i], Ranked(endpoints)[j]);
  }

  /** If any endpoint is known to work, the ranking starts with one that is. */
  lemma ReachableComesFirst(endpoints: seq<Endpoint>, e: Endpoint)
    requires e in endpoints && e.reachability == Reachable
    ensures Ranked(endpoints) != [] && Ranked(endpoints)[0].reachability == Reachable
    ensures Preferred(endpoints).Some? && Preferred(endpoints).value.reachability == Reachable
  {
    hide Compare, Insert, Ranked, Preferred, AtMost, Preferable;
    RankedSorted(endpoints);
    PreferredIsFirst(endpoints);
    assert e in multiset(endpoints);
    assert e in multiset(Ranked(endpoints));
    var j :| 0 <= j < |Ranked(endpoints)| && Ranked(endpoints)[j] == e;
    assert |multiset(Ranked(endpoints))| == |multiset(endpoints)|;
    if j > 0 {
      RankingPrefers(endpoints, 0, j);
    }
  }

  /** `preferred_endpoint`: the first of the least endpoints. */
  function Preferred(endpoints: seq<Endpoint>): Option<Endpoint>
  {
    if endpoints == [] then None
    else match Preferred(endpoints[1..])
      case None => Some(endpoints[0])
      case Some(best) => if AtMost(endpoints[0], best) then Some(endpoints[0]) else Some(best)
  }

  /** The preferred endpoint is the head of the ranking. */
  lemma {:induction false} PreferredIsFirst(endpoints: seq<Endpoint>)
    ensures Preferred(endpoints) == if endpoints == [] then None else Some(Ranked(endpoints)[0])
  {
    if endpoints != [] {
      PreferredIsFirst(endpoints[1..]);
      RankedSorted(endpoints[1..]);
    }
  }
}
