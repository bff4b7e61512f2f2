/**
 The peer registry: observations from many discovery sources are merged into one peer per
 device, and every operation leaves each peer's endpoint list equal to what is observed of it.
 */
module PeerRegistry {
  import opened Wrappers
  import opened Routing
  import opened EndpointView

  const MAX_ENDPOINTS_PER_OBSERVATION: nat := 32
  const MAX_ROUTE_FAILURES: nat := 8

  datatype Identity = Identity(id: string, name: string, os: string, version: nat, fingerprint: string)

  /** The tests of texts, addresses and keys that the registry calls; nothing is assumed of them. */
  datatype Rules = Rules(
    canonical: string -> Option<string>,
    acceptable: Identity -> bool,
    validSource: Source -> bool,
    usable: nat -> bool,
    validFingerprint: string -> bool)

  datatype Report = Report(identity: Identity, source: Source, endpoints: seq<Endpoint>)

  datatype RouteFailure = RouteFailure(address: nat, routeClass: RouteClass, reason: string, at: nat)

  datatype RouteSuccess = RouteSuccess(address: nat, routeClass: RouteClass, at: nat)

  datatype Peer = Peer(
    identity: Identity, authenticated: Option<string>,
    endpoints: seq<Endpoint>, observations: Observations, metadataSeen: nat,
    failures: seq<RouteFailure>, lastSuccess: Option<RouteSuccess>)

  datatype Change = Unchanged | Refreshed | Visible

  // ----- the invariant ---------------------------------------------------

  /** Each source observes something, and no address twice. */
  predicate Clean(obs: Observations)
  {
    forall s :: s in obs ==> obs[s] != [] && UniqueAddresses(obs[s])
  }

  ghost predicate PeerInv(peer: Peer)
  {
    && peer.endpoints != [] && Clean(peer.observations) && Derived(peer.observations, peer.endpoints)
    && |peer.failures| <= MAX_ROUTE_FAILURES
  }

  // ----- what the frontend is sent --------------------------------------

  datatype Snapshot = Snapshot(id: string, name: string, os: string, version: nat, online: bool)

  predicate IsOnline(endpoints: seq<Endpoint>)
  {
    exists i :: 0 <= i < |endpoints| && endpoints[i].reachability != Unreachable
  }

  /** A peer is shown online as long as one of its endpoints is not known to fail. */
  lemma OnlineMeans(peer: Peer)
    ensures SnapshotOf(peer).online <==> exists e :: e in peer.endpoints && e.reachability != Unreachable
    ensures SnapshotOf(peer).id == peer.identity.id && SnapshotOf(peer).name == peer.identity.name
    ensures SnapshotOf(peer).os == peer.identity.os && SnapshotOf(peer).version == peer.identity.version
  {
    if IsOnline(peer.endpoints) {
      var i :| 0 <= i < |peer.endpoints| && peer.endpoints[i].reachability != Unreachable;
      assert peer.endpoints[i] in peer.endpoints;
    }
  }

  function SnapshotOf(peer: Peer): Snapshot
  {
    Snapshot(peer.identity.id, peer.identity.name, peer.identity.os, peer.identity.version, IsOnline(peer.endpoints))
  }

  /** The snapshots by identifier; the list sent is these in the order of name and identifier. */
  function Snapshots(peers: map<string, Peer>): map<string, Snapshot>
  {
    map id | id in peers :: SnapshotOf(peers[id])
  }

  predicate SameVisibleEndpoints(left: seq<Endpoint>, right: seq<Endpoint>)
  {
    |left| == |right| &&
    forall i :: 0 <= i < |left| ==>
      && left[i].address == right[i].address && left[i].source == right[i].source
      && left[i].routeClass == right[i].routeClass && left[i].reachability == right[i].reachability
  }

  /** Visibly the same are endpoints that differ in nothing but the time they were last seen. */
  lemma VisiblyTheSame(left: seq<Endpoint>, right: seq<Endpoint>)
    ensures SameVisibleEndpoints(left, right) <==>
            |left| == |right| && forall i :: 0 <= i < |left| ==> left[i] == right[i].(lastSeen := left[i].lastSeen)
  {
  }

  predicate SameVisibleSources(left: Observations, right: Observations)
  {
    && |left| == |right|
    && forall s :: s in left ==> s in right && OneSided(left[s], right[s])
  }

  /** The same sources, and each item on either side has its match on the other. */
  predicate SameSources(left: Observations, right: Observations)
  {
    && left.Keys == right.Keys
    && forall s :: s in left ==> Covered(left[s], right[s]) && Covered(right[s], left[s])
  }

  /** The one-sided comparison of the registry is an equality, because no source repeats an address. */
  lemma SourcesComparedBothWays(left: Observations, right: Observations)
    requires Clean(left) && Clean(right)
    ensures SameVisibleSources(left, right) <==> SameSources(left, right)
  {
    hide UniqueAddresses, OneSided, Covered;
    assert |left| == |left.Keys| && |right| == |right.Keys|;
    if |left| == |right| && left.Keys <= right.Keys {
      SubsetOfEqualSize(left.Keys, right.Keys);
    }
    forall s | s in left && s in right
      ensures OneSided(left[s], right[s]) <==> Covered(left[s], right[s]) && Covered(right[s], left[s])
    {
      OneSidedIsEquality(left[s], right[s]);
    }
  }

  lemma SameVisibleSnapshot(a: Peer, b: Peer)
    requires SameVisibleEndpoints(a.endpoints, b.endpoints) && a.identity == b.identity
    ensures SnapshotOf(a) == SnapshotOf(b)
  {
    if IsOnline(a.endpoints) {
      var i :| 0 <= i < |a.endpoints| && a.endpoints[i].reachability != Unreachable;
      assert b.endpoints[i].reachability != Unreachable;
    }
    if IsOnline(b.endpoints) {
      var i :| 0 <= i < |b.endpoints| && b.endpoints[i].reachability != Unreachable;
      assert a.endpoints[i].reachability != Unreachable;
    }
  }

  // ----- views and emptiness --------------------------------------------

  lemma SomethingObserved(obs: Observations, s: Source)
    requires Clean(obs) && s in obs
    ensures Observed(obs, obs[s][0].address)
  {
    assert Seen(obs, s, obs[s][0], obs[s][0].address);
  }

  lemma EndpointMeansObserved(obs: Observations, endpoints: seq<Endpoint>)
    requires Derived(obs, endpoints) && endpoints != []
    ensures obs != map[]
  {
    hide Describes;
    assert Addresses(endpoints)[0] in Addresses(endpoints);
    var s, o :| Seen(obs, s, o, Addresses(endpoints)[0]);
    assert s in obs;
  }

  /** A peer has endpoints exactly as long as a source observes it. */
  lemma EmptyTogether(obs: Observations, endpoints: seq<Endpoint>)
    requires Clean(obs) && Derived(obs, endpoints)
    ensures endpoints == [] <==> obs == map[]
  {
    hide Describes, UniqueAddresses;
    if obs != map[] {
      var s :| s in obs;
      SomethingObserved(obs, s);
      assert obs[s][0].address in Addresses(endpoints);
    }
    if endpoints != [] {
      EndpointMeansObserved(obs, endpoints);
    }
  }

  /** Marking an endpoint changes only its reachability, which the invariant does not fix. */
  lemma MarkedDerived(obs: Observations, endpoints: seq<Endpoint>, i: nat, r: Reachability)
    requires i < |endpoints| && Derived(obs, endpoints)
    ensures Derived(obs, endpoints[i := endpoints[i].(reachability := r)])
  {
    hide IsBest, IsNewest;
    var marked := endpoints[i := endpoints[i].(reachability := r)];
    assert Addresses(marked) == Addresses(endpoints);
    assert forall k :: 0 <= k < |marked| ==> marked[k].(reachability := endpoints[k].reachability) == endpoints[k];
  }

  // ----- one source's new observations ----------------------------------

  function ObservationOf(e: Endpoint): Observation
  {
    Observation(e.address, e.routeClass, e.lastSeen, e.reachability)
  }

  /** The first of the newest reports of an address. */
  function NewestReport(endpoints: seq<Endpoint>, address: nat): (r: Option<Endpoint>)
    ensures r.Some? ==> r.value.address == address
  {
    if endpoints == [] then None
    else
      var front, e := NewestReport(endpoints[..|endpoints| - 1], address), endpoints[|endpoints| - 1];
      if e.address == address && (front.None? || e.lastSeen > front.value.lastSeen) then Some(e) else front
  }

  /** No report of its address is newer, and none before it is as new. */
  predicate IsFirstNewest(endpoints: seq<Endpoint>, i: nat, e: Endpoint)
  {
    && i < |endpoints| && endpoints[i] == e
    && (forall j :: 0 <= j < |endpoints| && endpoints[j].address == e.address ==>
          endpoints[j].lastSeen <= e.lastSeen && (j < i ==> endpoints[j].lastSeen < e.lastSeen))
  }

  predicate Reports(endpoints: seq<Endpoint>, address: nat)
  {
    exists j :: 0 <= j < |endpoints| && endpoints[j].address == address
  }

  ghost predicate FirstNewestOf(endpoints: seq<Endpoint>, e: Endpoint)
  {
    exists i: nat :: IsFirstNewest(endpoints, i, e)
  }

  lemma OneMoreReport(front: seq<Endpoint>, e: Endpoint, best: Endpoint)
    requires FirstNewestOf(front, best)
    ensures FirstNewestOf(front + [e], if e.address == best.address && e.lastSeen > best.lastSeen then e else best)
  {
    var i: nat :| IsFirstNewest(front, i, best);
    var all := front + [e];
    assert forall j :: 0 <= j < |front| ==> all[j] == front[j];
    if e.address == best.address && e.lastSeen > best.lastSeen {
      assert IsFirstNewest(all, |front|, e);
    } else {
      assert IsFirstNewest(all, i, best);
    }
  }

  lemma FirstReport(front: seq<Endpoint>, e: Endpoint, address: nat)
    requires !Reports(front, address)
    ensures e.address == address ==> FirstNewestOf(front + [e], e)
    ensures e.address != address ==> !Reports(front + [e], address)
  {
    assert forall j :: 0 <= j < |front| ==> (front + [e])[j] == front[j];
    if e.address == address {
      assert IsFirstNewest(front + [e], |front|, e);
    }
  }

  lemma {:induction false} NewestReportIsNewest(endpoints: seq<Endpoint>, address: nat)
    ensures match NewestReport(endpoints, address)
            case None => !Reports(endpoints, address)
            case Some(e) => FirstNewestOf(endpoints, e)
  {
    hide FirstNewestOf, Reports;
    if endpoints == [] {
      NoReports(address);
    } else {
      var front, e := endpoints[..|endpoints| - 1], endpoints[|endpoints| - 1];
      assert front + [e] == endpoints;
      NewestReportIsNewest(front, address);
      match NewestReport(front, address) {
        case None => FirstReport(front, e, address);
        case Some(best) => OneMoreReport(front, e, best);
      }
    }
  }

  lemma NoReports(address: nat)
    ensures !Reports([], address)
  {
  }

  /** The merged items, in any order: each reported address once, as its newest report has it. */
  ghost predicate Merged(endpoints: seq<Endpoint>, items: seq<Observation>)
  {
    && UniqueAddresses(items)
    && (forall o :: o in items <==>
          NewestReport(endpoints, o.address).Some? && ObservationOf(NewestReport(endpoints, o.address).value) == o)
    && (endpoints != [] ==> items != [])
  }

  /** The per-address map of a report, and its values in an arbitrary order. */
  method MergeReports(endpoints: seq<Endpoint>) returns (items: seq<Observation>)
    ensures Merged(endpoints, items)
  {
    var byAddress: map<nat, Observation> := map[];
    for i := 0 to |endpoints|
      invariant forall a :: a in byAddress <==> NewestReport(endpoints[..i], a).Some?
      invariant forall a :: a in byAddress ==> byAddress[a] == ObservationOf(NewestReport(endpoints[..i], a).value)
    {
      var e := endpoints[i];
      assert endpoints[..i + 1][..i] == endpoints[..i];
      if e.address !in byAddress || e.lastSeen > byAddress[e.address].lastSeen {
        byAddress := byAddress[e.address := ObservationOf(e)];
      }
    }
    assert endpoints[..|endpoints|] == endpoints;
    items := [];
    var pending := byAddress.Keys;
    while pending != {}
      invariant pending <= byAddress.Keys && UniqueAddresses(items)
      invariant forall o :: o in items <==> o.address in byAddress.Keys - pending && byAddress[o.address] == o
    {
      var a :| a in pending;
      assert byAddress[a].address == a;
      items := items + [byAddress[a]];
      pending := pending - {a};
    }
    if endpoints != [] {
      NewestReportIsNewest(endpoints, endpoints[0].address);
      assert endpoints[0].address in byAddress;
      assert byAddress[endpoints[0].address] in items;
    }
  }

  function UsableReports(rules: Rules, endpoints: seq<Endpoint>): seq<Endpoint>
  {
    if endpoints == [] then []
    else (if rules.usable(endpoints[0].address) then [endpoints[0]] else []) + UsableReports(rules, endpoints[1..])
  }

  /** The reports that count: usable addresses, no more than the limit. */
  function TakenReports(rules: Rules, endpoints: seq<Endpoint>): seq<Endpoint>
  {
    var usable := UsableReports(rules, endpoints);
    if |usable| <= MAX_ENDPOINTS_PER_OBSERVATION then usable else usable[..MAX_ENDPOINTS_PER_OBSERVATION]
  }

  function LatestReport(endpoints: seq<Endpoint>): nat
  {
    if endpoints == [] then 0
    else
      var front, e := LatestReport(endpoints[..|endpoints| - 1]), endpoints[|endpoints| - 1];
      if e.lastSeen > front then e.lastSeen else front
  }

  function LatestItem(items: seq<Observation>): nat
  {
    if items == [] then 0
    else
      var front, o := LatestItem(items[..|items| - 1]), items[|items| - 1];
      if o.lastSeen > front then o.lastSeen else front
  }

  /** Only usable addresses are taken, in the order reported, and all of them up to the limit. */
  lemma {:induction false} UsableReported(rules: Rules, endpoints: seq<Endpoint>, e: Endpoint)
    ensures e in UsableReports(rules, endpoints) <==> e in endpoints && rules.usable(e.address)
  {
    if endpoints != [] {
      UsableReported(rules, endpoints[1..], e);
      assert endpoints == [endpoints[0]] + endpoints[1..];
    }
  }

  lemma TakenReported(rules: Rules, endpoints: seq<Endpoint>)
    ensures var (taken, usable) := (TakenReports(rules, endpoints), UsableReports(rules, endpoints));
            && taken <= usable && |taken| == Min(|usable|, 32)
            && (forall e :: e in taken ==> e in endpoints && rules.usable(e.address))
            && (|taken| < 32 ==> forall e :: e in endpoints && rules.usable(e.address) ==> e in taken)
  {
    forall e ensures e in UsableReports(rules, endpoints) <==> e in endpoints && rules.usable(e.address) {
      UsableReported(rules, endpoints, e);
    }
  }

  /** The time of a report is that of its newest endpoint. */
  lemma {:induction false} LatestReportIsLatest(endpoints: seq<Endpoint>)
    ensures forall e :: e in endpoints ==> e.lastSeen <= LatestReport(endpoints)
    ensures endpoints != [] ==> exists e :: e in endpoints && e.lastSeen == LatestReport(endpoints)
    ensures endpoints == [] ==> LatestReport(endpoints) == 0
  {
    if endpoints != [] {
      var front, last := endpoints[..|endpoints| - 1], endpoints[|endpoints| - 1];
      LatestReportIsLatest(front);
      assert endpoints == front + [last];
      if front != [] && last.lastSeen <= LatestReport(front) {
        var e :| e in front && e.lastSeen == LatestReport(front);
        assert e in endpoints;
      } else {
        assert last in endpoints;
      }
    }
  }

  lemma {:induction false} LatestItemIsLatest(items: seq<Observation>)
    ensures forall o :: o in items ==> o.lastSeen <= LatestItem(items)
    ensures items != [] ==> exists o :: o in items && o.lastSeen == LatestItem(items)
  {
    if items != [] {
      var front, last := items[..|items| - 1], items[|items| - 1];
      LatestItemIsLatest(front);
      assert items == front + [last];
      if front != [] && last.lastSeen <= LatestItem(front) {
        var o :| o in front && o.lastSeen == LatestItem(front);
        assert o in items;
      } else {
        assert last in items;
      }
    }
  }

  /** A report replaces what its source said unless some of that is newer than all of the report. */
  lemma ReplacesUnlessOlder(obs: Observations, source: Source, at: nat)
    ensures Replaces(obs, source, at) <==> source in obs ==> forall o :: o in obs[source] ==> o.lastSeen <= at
  {
    if source in obs {
      LatestItemIsLatest(obs[source]);
    }
  }

  /** The tests a report must pass to have any effect. */
  predicate Accepted(rules: Rules, report: Report)
  {
    && rules.canonical(report.identity.id).Some? && rules.acceptable(report.identity)
    && rules.validSource(report.source) && TakenReports(rules, report.endpoints) != []
  }

  /** A report older than what its source said before does not replace it. */
  predicate Replaces(obs: Observations, source: Source, at: nat)
  {
    source in obs && obs[source] != [] ==> at >= LatestItem(obs[source])
  }

  /** The effect of an accepted report on its peer. */
  ghost predicate Applied(was: Observations, seen: seq<Endpoint>, now: Peer, source: Source, taken: seq<Endpoint>)
  {
    && (if Replaces(was, source, LatestReport(taken))
        then source in now.observations && Merged(taken, now.observations[source]) &&
             now.observations == was[source := now.observations[source]]
        else now.observations == was)
    && Reconciled(now.observations, seen, now.endpoints)
  }

  function NewPeer(identity: Identity, now: nat): Peer
  {
    Peer(identity, None, [], map[], now, [], None)
  }

  /** Nothing but times differs. */
  ghost predicate LooksTheSame(was: map<string, Peer>, now: map<string, Peer>)
  {
    && was.Keys == now.Keys
    && forall id :: id in now ==>
         && now[id].identity == was[id].identity
         && SameVisibleEndpoints(was[id].endpoints, now[id].endpoints)
         && SameSources(was[id].observations, now[id].observations)
  }

  /** Nothing differs but the time of the last metadata. */
  ghost predicate SameRecords(was: map<string, Peer>, now: map<string, Peer>)
  {
    && was.Keys == now.Keys
    && forall id :: id in now ==> now[id] == was[id].(metadataSeen := now[id].metadataSeen)
  }

  /** A report refreshes name, system and version unless it is old or the identity is authenticated. */
  function RefreshedIdentity(peer: Peer, identity: Identity, at: nat): Identity
  {
    if at >= peer.metadataSeen && peer.authenticated.None? then identity.(id := peer.identity.id) else peer.identity
  }

  /** An accepted report is applied to its peer, known or new, and to no other. */
  ghost predicate AppliedTo(
    rules: Rules, was: map<string, Peer>, now: map<string, Peer>, report: Report, time: nat)
    requires Accepted(rules, report)
  {
    var id := rules.canonical(report.identity.id).value;
    var peer := if id in was then was[id] else NewPeer(report.identity.(id := id), time);
    var taken := TakenReports(rules, report.endpoints);
    && id in now && now == was[id := now[id]]
    && now[id] == peer.(identity := RefreshedIdentity(peer, report.identity, LatestReport(taken)),
                        metadataSeen := Max(peer.metadataSeen, LatestReport(taken)),
                        observations := now[id].observations, endpoints := now[id].endpoints)
    && Applied(peer.observations, peer.endpoints, now[id], report.source, taken)
  }

  /** The peer is known and its view lists the address. */
  predicate HasEndpoint(rules: Rules, peers: map<string, Peer>, peerId: string, address: nat)
  {
    && rules.canonical(peerId).Some? && rules.canonical(peerId).value in peers
    && exists i :: 0 <= i < |peers[rules.canonical(peerId).value].endpoints| &&
                   peers[rules.canonical(peerId).value].endpoints[i].address == address
  }

  /** The identity belongs to a known peer and carries a key. */
  predicate Bindable(rules: Rules, peers: map<string, Peer>, identity: Identity)
  {
    && rules.canonical(identity.id).Some? && rules.canonical(identity.id).value in peers
    && rules.validFingerprint(identity.fingerprint)
  }

  /** One endpoint was marked; nothing else of the view was touched. */
  ghost predicate MarkedAt(was: seq<Endpoint>, now: seq<Endpoint>, i: nat, address: nat, r: Reachability)
  {
    i < |was| && was[i].address == address && now == was[i := was[i].(reachability := r)]
  }

  /** The endpoint is reachable and the success is noted. */
  ghost predicate SucceededAt(was: Peer, now: Peer, address: nat, at: nat)
  {
    exists i: nat ::
      && MarkedAt(was.endpoints, now.endpoints, i, address, Reachable)
      && now == was.(endpoints := now.endpoints,
                     lastSuccess := Some(RouteSuccess(address, was.endpoints[i].routeClass, at)))
  }

  /** The endpoint is unreachable; the failure stands before the older ones, of which the oldest may go. */
  ghost predicate FailedAt(was: Peer, now: Peer, address: nat, reason: string, at: nat)
  {
    exists i: nat ::
      && MarkedAt(was.endpoints, now.endpoints, i, address, Unreachable)
      && now == was.(endpoints := now.endpoints, failures := now.failures)
      && now.failures <= [RouteFailure(address, was.endpoints[i].routeClass, reason, at)] + was.failures
      && |now.failures| == Min(|was.failures| + 1, MAX_ROUTE_FAILURES)
  }

  lemma NothingChanged(peers: map<string, Peer>)
    ensures LooksTheSame(peers, peers)
  {
    forall id | id in peers ensures SameSources(peers[id].observations, peers[id].observations) {
      forall s | s in peers[id].observations ensures Covered(peers[id].observations[s], peers[id].observations[s]) {
        MatchesItself(peers[id].observations[s]);
      }
    }
  }

  lemma MatchesItself(items: seq<Observation>)
    ensures Covered(items, items)
  {
    forall i | 0 <= i < |items| ensures HasMatch(items[i], items) {
      assert SameVisible(items[i], items[i]);
    }
  }

  lemma KnownPeer(peer: Peer, existed: bool, identity: Identity, now: nat)
    requires if existed then PeerInv(peer) else peer == NewPeer(identity, now)
    ensures Clean(peer.observations) && |peer.failures| <= MAX_ROUTE_FAILURES
  {
  }

  lemma StillAPeer(was: Peer, peer: Peer, source: Source, taken: seq<Endpoint>)
    requires |was.failures| <= MAX_ROUTE_FAILURES && peer.failures == was.failures
    requires Clean(peer.observations) && peer.endpoints != []
    requires Applied(was.observations, was.endpoints, peer, source, taken)
    ensures PeerInv(peer)
  {
    hide Merged, Describes;
  }

  /** Comparing the one peer that was touched compares the whole registry. */
  lemma ComparedOneByOne(peers: map<string, Peer>, id: string, was: Peer, peer: Peer)
    requires id in peers ==> peers[id] == was
    requires Clean(was.observations) && Clean(peer.observations)
    ensures id !in peers ==> !LooksTheSame(peers, peers[id := peer]) && !SameRecords(peers, peers[id := peer])
    ensures id in peers ==>
              (LooksTheSame(peers, peers[id := peer]) <==>
                 peer.identity == was.identity && SameVisibleEndpoints(was.endpoints, peer.endpoints) &&
                 SameVisibleSources(was.observations, peer.observations))
  {
    hide Clean, SameVisibleSources, SameVisibleEndpoints, SameSources;
    NothingChanged(peers);
    SourcesComparedBothWays(was.observations, peer.observations);
    assert id !in peers ==> id in peers[id := peer].Keys;
  }

  lemma OneSnapshot(peers: map<string, Peer>, id: string, peer: Peer)
    requires id in peers && SnapshotOf(peers[id]) == SnapshotOf(peer)
    ensures Snapshots(peers[id := peer]) == Snapshots(peers)
  {
    hide SnapshotOf;
  }

  lemma MarkedPeer(peer: Peer, i: nat, r: Reachability)
    requires PeerInv(peer) && i < |peer.endpoints|
    ensures PeerInv(peer.(endpoints := peer.endpoints[i := peer.endpoints[i].(reachability := r)]))
  {
    hide Derived, Clean;
    MarkedDerived(peer.observations, peer.endpoints, i, r);
  }

  lemma SuccessNoted(peer: Peer, success: Option<RouteSuccess>)
    requires PeerInv(peer)
    ensures PeerInv(peer.(lastSuccess := success))
  {
  }

  lemma FailureNoted(peer: Peer, failures: seq<RouteFailure>)
    requires PeerInv(peer) && |failures| <= MAX_ROUTE_FAILURES
    ensures PeerInv(peer.(failures := failures))
  {
  }

  lemma IdentityNoted(peer: Peer, identity: Identity, authenticated: Option<string>)
    requires PeerInv(peer)
    ensures PeerInv(peer.(identity := identity, authenticated := authenticated))
    ensures identity == peer.identity ==>
              SnapshotOf(peer.(identity := identity, authenticated := authenticated)) == SnapshotOf(peer)
  {
  }

  // ----- removals --------------------------------------------------------

  datatype Removal =
    | OfSource(source: Source)
    | OfDiscovery(discovery: string)
    | Stale(discovery: string, now: nat, after: nat)

  /** Items a source has seen recently enough. */
  function Fresh(items: seq<Observation>, now: nat, after: nat): seq<Observation>
  {
    if items == [] then []
    else (if now <= items[0].lastSeen + after then [items[0]] else []) + Fresh(items[1..], now, after)
  }

  function KeptItems(s: Source, items: seq<Observation>, removal: Removal): seq<Observation>
  {
    match removal
    case OfSource(source) => if s == source then [] else items
    case OfDiscovery(discovery) => if s.discovery == discovery then [] else items
    case Stale(discovery, now, after) => if s.discovery == discovery then Fresh(items, now, after) else items
  }

  /** What remains observed: sources without items are dropped. */
  function Kept(obs: Observations, removal: Removal): Observations
  {
    map s | s in obs && KeptItems(s, obs[s], removal) != [] :: KeptItems(s, obs[s], removal)
  }

  lemma {:induction false} FreshIsPart(items: seq<Observation>, now: nat, after: nat)
    requires UniqueAddresses(items)
    ensures UniqueAddresses(Fresh(items, now, after)) && forall o :: o in Fresh(items, now, after) ==> o in items
  {
    if items != [] {
      FreshIsPart(items[1..], now, after);
      var rest := Fresh(items[1..], now, after);
      forall k | 0 <= k < |rest| ensures rest[k].address != items[0].address {
        assert rest[k] in rest;
        assert rest[k] in items[1..];
        var j :| 0 <= j < |items[1..]| && items[1..][j] == rest[k];
        assert items[j + 1] == rest[k];
      }
    }
  }

  /** What a removal leaves seen: all but the named source, the named discovery, or what that has not seen of late. */
  predicate Survives(removal: Removal, s: Source, o: Observation)
  {
    match removal
    case OfSource(source) => s != source
    case OfDiscovery(discovery) => s.discovery != discovery
    case Stale(discovery, now, after) => s.discovery != discovery || now <= o.lastSeen + after
  }

  lemma {:induction false} FreshKeeps(items: seq<Observation>, now: nat, after: nat, o: Observation)
    ensures o in Fresh(items, now, after) <==> o in items && now <= o.lastSeen + after
  {
    if items != [] {
      FreshKeeps(items[1..], now, after, o);
      assert items == [items[0]] + items[1..];
    }
  }

  /** Exactly what survives is still seen, under its own source. */
  ghost predicate SeenAfter(was: Observations, now: Observations, removal: Removal)
  {
    forall s, o, a :: Seen(now, s, o, a) <==> Seen(was, s, o, a) && Survives(removal, s, o)
  }

  lemma KeptIsWhatSurvives(obs: Observations, removal: Removal)
    ensures SeenAfter(obs, Kept(obs, removal), removal)
    ensures Kept(obs, removal) != map[] <==> exists s, o, a :: Seen(obs, s, o, a) && Survives(removal, s, o)
  {
    var kept := Kept(obs, removal);
    forall s, o, a ensures Seen(kept, s, o, a) <==> Seen(obs, s, o, a) && Survives(removal, s, o) {
      KeptOne(obs, removal, s, o, a);
    }
    if kept != map[] {
      var s :| s in kept;
      assert Seen(kept, s, kept[s][0], kept[s][0].address);
    }
  }

  lemma KeptOne(obs: Observations, removal: Removal, s: Source, o: Observation, a: nat)
    ensures Seen(Kept(obs, removal), s, o, a) <==> Seen(obs, s, o, a) && Survives(removal, s, o)
  {
    if removal.Stale? && s in obs {
      FreshKeeps(obs[s], removal.now, removal.after, o);
    }
  }

  lemma KeptIsClean(obs: Observations, removal: Removal)
    requires Clean(obs)
    ensures Clean(Kept(obs, removal))
  {
    forall s | s in Kept(obs, removal) ensures UniqueAddresses(Kept(obs, removal)[s]) {
      if removal.Stale? {
        FreshIsPart(obs[s], removal.now, removal.after);
      }
    }
  }

  /** A peer after a removal, before empty peers are dropped. */
  ghost predicate Pruned(was: Peer, now: Peer, removal: Removal)
  {
    && now == was.(observations := now.observations, endpoints := now.endpoints)
    && now.observations == Kept(was.observations, removal)
    && Clean(now.observations) && Derived(now.observations, now.endpoints)
    && Rebuilt(was, now, removal)
  }

  /** The view is rebuilt where something was taken away, and always when ages are looked at. */
  ghost predicate Rebuilt(was: Peer, now: Peer, removal: Removal)
  {
    if now.observations == was.observations && !removal.Stale? then now.endpoints == was.endpoints
    else Reconciled(now.observations, was.endpoints, now.endpoints)
  }

  /** Exactly the peers that are still observed remain, with what is kept of them. */
  ghost predicate RemovedFrom(was: map<string, Peer>, now: map<string, Peer>, removal: Removal)
  {
    && now.Keys <= was.Keys
    && (forall id :: id in was ==> (id in now <==> Kept(was[id].observations, removal) != map[]))
    && (forall id :: id in now ==>
          && now[id].observations == Kept(was[id].observations, removal)
          && now[id] == was[id].(observations := now[id].observations, endpoints := now[id].endpoints)
          && Rebuilt(was[id], now[id], removal))
  }

  /** Exactly the peers of which something survives remain, and of each exactly that is still seen. */
  ghost predicate OnlySurvivors(was: map<string, Peer>, now: map<string, Peer>, removal: Removal)
  {
    && now.Keys <= was.Keys
    && forall id :: id in was ==>
         && (id in now <==> exists s, o, a :: Seen(was[id].observations, s, o, a) && Survives(removal, s, o))
         && (id in now ==> SeenAfter(was[id].observations, now[id].observations, removal))
  }

  lemma RemovedMeansSurvivors(was: map<string, Peer>, now: map<string, Peer>, removal: Removal)
    requires RemovedFrom(was, now, removal)
    ensures OnlySurvivors(was, now, removal)
  {
    hide Kept, Rebuilt, SeenAfter, Survives, Seen;
    forall id | id in was {
      KeptIsWhatSurvives(was[id].observations, removal);
    }
  }

  /** What a removal leaves of one peer, and when it leaves the peer at all. */
  ghost predicate Thinned(was: Peer, now: Peer, removal: Removal)
  {
    && (now.endpoints != [] <==> Kept(was.observations, removal) != map[])
    && (now.endpoints != [] ==> PeerInv(now))
    && now == was.(observations := Kept(was.observations, removal), endpoints := now.endpoints)
    && Rebuilt(was, now, removal)
  }

  lemma PrunedIsThinned(was: Peer, now: Peer, removal: Removal)
    requires PeerInv(was) && Pruned(was, now, removal)
    ensures was.endpoints != [] && Thinned(was, now, removal)
  {
    hide Kept, Clean, Derived, Rebuilt;
    EmptyTogether(now.observations, now.endpoints);
  }

  /** The peers that still have endpoints. */
  function Inhabited(peers: map<string, Peer>): map<string, Peer>
  {
    map id | id in peers && peers[id].endpoints != [] :: peers[id]
  }

  lemma InhabitedUnchanged(was: map<string, Peer>, pruned: map<string, Peer>)
    requires was.Keys == pruned.Keys && forall id :: id in was ==> was[id].endpoints != []
    ensures pruned == was <==> Inhabited(pruned) == was
  {
    if Inhabited(pruned) == was {
      forall id | id in was ensures pruned[id] == was[id] {
        assert id in Inhabited(pruned);
      }
    }
  }

  lemma ThinnedPeers(was: map<string, Peer>, pruned: map<string, Peer>, removal: Removal)
    requires was.Keys == pruned.Keys && forall id :: id in pruned ==> Thinned(was[id], pruned[id], removal)
    ensures RemovedFrom(was, Inhabited(pruned), removal)
    ensures forall id :: id in Inhabited(pruned) ==>
              PeerInv(Inhabited(pruned)[id]) && Inhabited(pruned)[id].identity == was[id].identity
  {
    hide PeerInv, Kept, Rebuilt;
  }

  lemma EmptyPeersGo(was: map<string, Peer>, pruned: map<string, Peer>, removal: Removal)
    requires was.Keys == pruned.Keys
    requires forall id :: id in was ==> PeerInv(was[id]) && was[id].identity.id == id
    requires forall id :: id in pruned ==> Pruned(was[id], pruned[id], removal)
    ensures RemovedFrom(was, Inhabited(pruned), removal)
    ensures forall id :: id in Inhabited(pruned) ==>
              PeerInv(Inhabited(pruned)[id]) && Inhabited(pruned)[id].identity.id == id
    ensures pruned == was <==> Inhabited(pruned) == was
  {
    hide PeerInv, Pruned, Thinned, RemovedFrom;
    forall id | id in was ensures was[id].endpoints != [] && Thinned(was[id], pruned[id], removal) {
      PrunedIsThinned(was[id], pruned[id], removal);
    }
    ThinnedPeers(was, pruned, removal);
    InhabitedUnchanged(was, pruned);
  }

  // ----- the registry ----------------------------------------------------

  class PeerRegistry {
    var peers: map<string, Peer>

    ghost predicate Valid()
      reads this
    {
      forall id :: id in peers ==> PeerInv(peers[id]) && peers[id].identity.id == id
    }

    constructor ()
      ensures Valid() && peers == map[]
    {
      peers := map[];
    }

    /** The name and version a later report may refresh, unless the identity is authenticated. */
    method RefreshMetadata(peer: Peer, identity: Identity, at: nat) returns (refreshed: Peer, changed: bool)
      ensures refreshed == peer.(identity := RefreshedIdentity(peer, identity, at),
                                 metadataSeen := Max(peer.metadataSeen, at))
      ensures changed <==> refreshed.identity != peer.identity
    {
      refreshed, changed := peer, false;
      if at >= peer.metadataSeen {
        if peer.authenticated.None? {
          var latest := peer.identity.(
            name := identity.name, os := identity.os, version := identity.version, fingerprint := identity.fingerprint);
          changed := latest != peer.identity;
          refreshed := refreshed.(identity := latest);
        }
        refreshed := refreshed.(metadataSeen := at);
      }
    }

    /** The source's items are replaced, unless the report is older, and the view is rebuilt. */
    method ApplyToPeer(peer: Peer, source: Source, taken: seq<Endpoint>) returns (now: Peer)
      requires Clean(peer.observations) && taken != []
      ensures now == peer.(observations := now.observations, endpoints := now.endpoints)
      ensures Applied(peer.observations, peer.endpoints, now, source, taken)
      ensures Clean(now.observations) && now.endpoints != []
    {
      hide Reconciled, Merged, UniqueAddresses, NewestReport, LatestReport, LatestItem, Derived;
      var obs := peer.observations;
      if Replaces(obs, source, LatestReport(taken)) {
        var items := MergeReports(taken);
        MergedClean(taken, items);
        obs := obs[source := items];
      }
      var endpoints := ReconcileEndpoints(obs, peer.endpoints);
      ReconciledIsDerived(obs, peer.endpoints, endpoints);
      EmptyTogether(obs, endpoints);
      assert source in obs;
      now := peer.(observations := obs, endpoints := endpoints);
    }

    /**
     `apply_observation_change`. A report that is not accepted changes nothing; an accepted one
     changes its own peer only, and never an authenticated identity; the result says exactly
     whether something visible changed, or only times, or nothing of the records.
     */
    method ApplyObservationChange(rules: Rules, report: Report, now: nat) returns (change: Change)
      requires Valid()
      modifies this
      ensures Valid() && old(peers).Keys <= peers.Keys
      ensures !Accepted(rules, report) ==> change == Unchanged && peers == old(peers)
      ensures Accepted(rules, report) ==> AppliedTo(rules, old(peers), peers, report, now)
      ensures change == Visible <==> !LooksTheSame(old(peers), peers)
      ensures change == Unchanged <==> SameRecords(old(peers), peers)
      ensures change != Visible ==> Snapshots(peers) == old(Snapshots(peers))
      ensures forall id :: id in old(peers) && old(peers)[id].authenticated.Some? ==>
                peers[id].identity == old(peers)[id].identity && peers[id].authenticated == old(peers)[id].authenticated
    {
      hide PeerInv, Applied, Clean, TakenReports, LatestReport, SameVisibleSources, SameVisibleEndpoints, IsOnline,
        SameSources;
      NothingChanged(peers);
      var canonical := rules.canonical(report.identity.id);
      if canonical.None? || !rules.acceptable(report.identity) || !rules.validSource(report.source) {
        return Unchanged;
      }
      var taken := TakenReports(rules, report.endpoints);
      if taken == [] {
        return Unchanged;
      }
      var id, existed := canonical.value, canonical.value in peers;
      var was := if existed then peers[id] else NewPeer(report.identity.(id := id), now);
      KnownPeer(was, existed, report.identity.(id := id), now);
      var peer, metadataChanged := RefreshMetadata(was, report.identity, LatestReport(taken));
      peer := ApplyToPeer(peer, report.source, taken);
      StillAPeer(was, peer, report.source, taken);
      var endpointVisible := !SameVisibleEndpoints(was.endpoints, peer.endpoints);
      var sourceVisible := !SameVisibleSources(was.observations, peer.observations);
      if peer.endpoints == [] {
        assert false;
      }
      peers := peers[id := peer];
      ComparedOneByOne(old(peers), id, was, peer);
      if !existed || metadataChanged || endpointVisible || sourceVisible {
        return Visible;
      }
      SameVisibleSnapshot(was, peer);
      OneSnapshot(old(peers), id, peer);
      var refreshed := was.endpoints != peer.endpoints || was.observations != peer.observations;
      change := if refreshed then Refreshed else Unchanged;
    }

    /** `apply_observation_visible`: false means that the frontend has nothing new to show. */
    method ApplyObservationVisible(rules: Rules, report: Report, now: nat) returns (visible: bool)
      requires Valid()
      modifies this
      ensures Valid() && old(peers).Keys <= peers.Keys
      ensures !Accepted(rules, report) ==> peers == old(peers)
      ensures Accepted(rules, report) ==> AppliedTo(rules, old(peers), peers, report, now)
      ensures visible <==> !LooksTheSame(old(peers), peers)
      ensures !visible ==> Snapshots(peers) == old(Snapshots(peers))
    {
      hide PeerInv, LooksTheSame, AppliedTo, Accepted, SameRecords, SnapshotOf;
      var change := ApplyObservationChange(rules, report, now);
      visible := change == Visible;
    }

    /** The position of an address in a peer's view. */
    method FindEndpoint(endpoints: seq<Endpoint>, address: nat) returns (r: Option<nat>)
      ensures r.None? ==> forall i :: 0 <= i < |endpoints| ==> endpoints[i].address != address
      ensures r.Some? ==> r.value < |endpoints| && endpoints[r.value].address == address
    {
      for i := 0 to |endpoints|
        invariant forall k :: 0 <= k < i ==> endpoints[k].address != address
      {
        if endpoints[i].address == address {
          return Some(i);
        }
      }
      r := None;
    }

    /** A connection over an address succeeded. */
    method RecordRouteSuccess(rules: Rules, peerId: string, address: nat, now: nat) returns (found: bool)
      requires Valid()
      modifies this
      ensures Valid() && (found <==> HasEndpoint(rules, old(peers), peerId, address))
      ensures !found ==> peers == old(peers)
      ensures found ==>
                var id := rules.canonical(peerId).value;
                id in peers && peers == old(peers)[id := peers[id]] &&
                SucceededAt(old(peers)[id], peers[id], address, now)
    {
      hide PeerInv;
      var id := rules.canonical(peerId);
      if id.None? || id.value !in peers {
        return false;
      }
      var peer := peers[id.value];
      var i := FindEndpoint(peer.endpoints, address);
      if i.None? {
        return false;
      }
      MarkedPeer(peer, i.value, Reachable);
      var e := peer.endpoints[i.value].(reachability := Reachable);
      peers := peers[id.value := peer.(endpoints := peer.endpoints[i.value := e],
                                       lastSuccess := Some(RouteSuccess(address, e.routeClass, now)))];
      SuccessNoted(peer.(endpoints := peer.endpoints[i.value := e]), Some(RouteSuccess(address, e.routeClass, now)));
      assert MarkedAt(peer.endpoints, peers[id.value].endpoints, i.value, address, Reachable);
      found := true;
    }

    /** A connection over an address failed; only the latest failures are kept. */
    method RecordRouteFailure(rules: Rules, peerId: string, address: nat, reason: string, now: nat)
      returns (found: bool)
      requires Valid()
      modifies this
      ensures Valid() && (found <==> HasEndpoint(rules, old(peers), peerId, address))
      ensures !found ==> peers == old(peers)
      ensures found ==>
                var id := rules.canonical(peerId).value;
                id in peers && peers == old(peers)[id := peers[id]] &&
                FailedAt(old(peers)[id], peers[id], address, reason, now)
    {
      hide PeerInv;
      var id := rules.canonical(peerId);
      if id.None? || id.value !in peers {
        return false;
      }
      var peer := peers[id.value];
      var i := FindEndpoint(peer.endpoints, address);
      if i.None? {
        return false;
      }
      MarkedPeer(peer, i.value, Unreachable);
      var e := peer.endpoints[i.value].(reachability := Unreachable);
      var failures := [RouteFailure(address, e.routeClass, reason, now)] + peer.failures;
      ghost var all := failures;
      while |failures| > MAX_ROUTE_FAILURES
        invariant failures <= all && |failures| >= Min(|all|, MAX_ROUTE_FAILURES)
      {
        failures := failures[..|failures| - 1];
      }
      FailureNoted(peer.(endpoints := peer.endpoints[i.value := e]), failures);
      peers := peers[id.value := peer.(endpoints := peer.endpoints[i.value := e], failures := failures)];
      assert MarkedAt(peer.endpoints, peers[id.value].endpoints, i.value, address, Unreachable);
      found := true;
    }

    /** A secure handshake bound an identity to a known peer. */
    method RecordAuthenticatedIdentity(rules: Rules, identity: Identity) returns (changed: bool)
      requires Valid()
      modifies this
      ensures Valid() && (changed <==> peers != old(peers))
      ensures !Bindable(rules, old(peers), identity) ==> !changed
      ensures Bindable(rules, old(peers), identity) ==>
                var id := rules.canonical(identity.id).value;
                peers == old(peers)[id := old(peers)[id].(identity := identity.(id := id),
                                                          authenticated := Some(identity.fingerprint))]
    {
      hide PeerInv, IsOnline;
      var id := rules.canonical(identity.id);
      if id.None? || id.value !in peers || !rules.validFingerprint(identity.fingerprint) {
        return false;
      }
      var peer := peers[id.value];
      var bound := identity.(id := peer.identity.id);
      changed := peer.authenticated != Some(identity.fingerprint) || peer.identity != bound;
      IdentityNoted(peer, bound, Some(identity.fingerprint));
      peers := peers[id.value := peer.(identity := bound, authenticated := Some(identity.fingerprint))];
    }

    /** One peer loses what the removal names, and its view is rebuilt. */
    method PrunePeer(peer: Peer, removal: Removal) returns (pruned: Peer, changed: bool)
      requires PeerInv(peer)
      ensures Pruned(peer, pruned, removal) && (changed <==> pruned != peer)
    {
      hide Kept, Reconciled, Clean, Derived;
      var kept := Kept(peer.observations, removal);
      KeptIsClean(peer.observations, removal);
      if kept == peer.observations && !removal.Stale? {
        return peer, false;
      }
      var endpoints := ReconcileEndpoints(kept, peer.endpoints);
      ReconciledIsDerived(kept, peer.endpoints, endpoints);
      pruned := peer.(observations := kept, endpoints := endpoints);
      changed := kept != peer.observations || endpoints != peer.endpoints;
    }

    /** The three removals: of a source, of a discovery method, of what it has not seen for too long. */
    method Remove(removal: Removal) returns (changed: bool)
      requires Valid()
      modifies this
      ensures Valid() && RemovedFrom(old(peers), peers, removal)
      ensures OnlySurvivors(old(peers), peers, removal)
      ensures changed <==> peers != old(peers)
    {
      hide PeerInv, Pruned, RemovedFrom, OnlySurvivors;
      changed := false;
      var pending := peers.Keys;
      ghost var before := peers;
      while pending != {}
        invariant peers.Keys == before.Keys && pending <= peers.Keys
        invariant forall id :: id in pending ==> peers[id] == before[id]
        invariant forall id :: id in peers && id !in pending ==> Pruned(before[id], peers[id], removal)
        invariant changed <==> peers != before
      {
        var id :| id in pending;
        var pruned, lost := PrunePeer(peers[id], removal);
        changed := changed || lost;
        peers := peers[id := pruned];
        pending := pending - {id};
      }
      EmptyPeersGo(before, peers, removal);
      RemovedMeansSurvivors(before, Inhabited(peers), removal);
      peers := Inhabited(peers);
    }
  }

  lemma MergedClean(endpoints: seq<Endpoint>, items: seq<Observation>)
    requires Merged(endpoints, items) && endpoints != []
    ensures items != [] && UniqueAddresses(items)
  {
  }

  lemma ReconciledIsDerived(obs: Observations, previous: seq<Endpoint>, endpoints: seq<Endpoint>)
    requires Reconciled(obs, previous, endpoints)
    ensures Derived(obs, endpoints)
  {
  }
}
