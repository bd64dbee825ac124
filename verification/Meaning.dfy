/** What the service query means: which answers it gives, how many, and with which error. */
module Meaning {
  import opened Sequences
  import opened Text
  import opened Objects
  import opened Parse
  import opened Backend
  import opened ServiceQuery

  // ---------------------------------------------------------------------------------------------
  // Membership: the loops yield exactly the declared combinations.
  // ---------------------------------------------------------------------------------------------

  /** a answers r with one address and one port of one of svc's subsets. */
  ghost predicate EndpointOffer(k: Kube, r: RecordRequest, zone: Name, svc: Service, endpointsList: seq<Endpoints>,
                                a: Answer) {
    exists ep, sub, addr, p ::
      && ep in endpointsList && ep.name == svc.name && ep.namespace == svc.namespace
      && sub in ep.subsets && addr in sub.addresses && p in sub.ports
      && AddressMatches(k, r, addr) && PortMatches(r, p)
      && a == EndpointAnswer(k, zone, svc, addr, p)
  }

  lemma SubsetMember(k: Kube, r: RecordRequest, zone: Name, svc: Service, sub: Subset, addr: Address, p: Port)
    requires addr in sub.addresses && p in sub.ports && AddressMatches(k, r, addr) && PortMatches(r, p)
    ensures EndpointAnswer(k, zone, svc, addr, p) in SubsetAnswers(k, r, zone, svc, sub)
  {
    var a := EndpointAnswer(k, zone, svc, addr, p);
    FlatMapMember((q: Port) => PortAnswers(k, r, zone, svc, addr, q), sub.ports, p, a);
    FlatMapMember((x: Address) => AddressAnswers(k, r, zone, svc, sub.ports, x), sub.addresses, addr, a);
  }

  lemma SubsetSource(k: Kube, r: RecordRequest, zone: Name, svc: Service, sub: Subset, a: Answer)
    returns (addr: Address, p: Port)
    requires a in SubsetAnswers(k, r, zone, svc, sub)
    ensures addr in sub.addresses && p in sub.ports && AddressMatches(k, r, addr) && PortMatches(r, p)
    ensures a == EndpointAnswer(k, zone, svc, addr, p)
  {
    addr := FlatMapSource((x: Address) => AddressAnswers(k, r, zone, svc, sub.ports, x), sub.addresses, a);
    p := FlatMapSource((q: Port) => PortAnswers(k, r, zone, svc, addr, q), sub.ports, a);
  }

  lemma EndpointsMember(k: Kube, r: RecordRequest, zone: Name, svc: Service, endpointsList: seq<Endpoints>,
                        ep: Endpoints, sub: Subset, addr: Address, p: Port)
    requires ep in endpointsList && ep.name == svc.name && ep.namespace == svc.namespace && sub in ep.subsets
    requires addr in sub.addresses && p in sub.ports && AddressMatches(k, r, addr) && PortMatches(r, p)
    ensures EndpointAnswer(k, zone, svc, addr, p)
            in FlatMap((e: Endpoints) => EndpointsAnswers(k, r, zone, svc, e), endpointsList)
  {
    var a := EndpointAnswer(k, zone, svc, addr, p);
    SubsetMember(k, r, zone, svc, sub, addr, p);
    FlatMapMember((s: Subset) => SubsetAnswers(k, r, zone, svc, s), ep.subsets, sub, a);
    FlatMapMember((e: Endpoints) => EndpointsAnswers(k, r, zone, svc, e), endpointsList, ep, a);
  }

  lemma EndpointsIff(k: Kube, r: RecordRequest, zone: Name, svc: Service, endpointsList: seq<Endpoints>, a: Answer)
    ensures a in FlatMap((ep: Endpoints) => EndpointsAnswers(k, r, zone, svc, ep), endpointsList)
            <==> EndpointOffer(k, r, zone, svc, endpointsList, a)
  {
    var step := (ep: Endpoints) => EndpointsAnswers(k, r, zone, svc, ep);
    if a in FlatMap(step, endpointsList) {
      var ep := FlatMapSource(step, endpointsList, a);
      var sub := FlatMapSource((s: Subset) => SubsetAnswers(k, r, zone, svc, s), ep.subsets, a);
      var addr, p := SubsetSource(k, r, zone, svc, sub, a);
    }
    if EndpointOffer(k, r, zone, svc, endpointsList, a) {
      var ep, sub, addr, p :|
        && ep in endpointsList && ep.name == svc.name && ep.namespace == svc.namespace
        && sub in ep.subsets && addr in sub.addresses && p in sub.ports
        && AddressMatches(k, r, addr) && PortMatches(r, p)
        && a == EndpointAnswer(k, zone, svc, addr, p);
      EndpointsMember(k, r, zone, svc, endpointsList, ep, sub, addr, p);
    }
  }

  /** a answers r with the service's cluster address and one of its ports. */
  ghost predicate ClusterOffer(k: Kube, r: RecordRequest, zone: Name, svc: Service, a: Answer) {
    exists p :: p in svc.ports && PortMatches(r, p) && a == ClusterAnswer(k, zone, svc, p)
  }

  /** What a service may answer, by its kind and the request's. */
  ghost predicate Offer(k: Kube, r: RecordRequest, zone: Name, svc: Service, endpointsList: seq<Endpoints>, a: Answer) {
    if Headless(svc) || r.endpoint != "" then EndpointOffer(k, r, zone, svc, endpointsList, a)
    else if svc.svcType.ExternalNameService? then
      k.hostKind(svc.externalName).HostName? && a == ExternalAnswer(k, zone, svc)
    else ClusterOffer(k, r, zone, svc, a)
  }

  lemma OffersIff(k: Kube, r: RecordRequest, zone: Name, svc: Service, endpointsList: seq<Endpoints>, a: Answer)
    ensures a in Offers(k, r, zone, endpointsList, svc) <==> Offer(k, r, zone, svc, endpointsList, a)
  {
    if Headless(svc) || r.endpoint != "" {
      EndpointsIff(k, r, zone, svc, endpointsList, a);
    } else if !svc.svcType.ExternalNameService? {
      var step := (p: Port) => ClusterAnswers(k, r, zone, svc, p);
      if a in FlatMap(step, svc.ports) {
        var p := FlatMapSource(step, svc.ports, a);
      }
      if ClusterOffer(k, r, zone, svc, a) {
        var p :| p in svc.ports && PortMatches(r, p) && a == ClusterAnswer(k, zone, svc, p);
        FlatMapMember(step, svc.ports, p, a);
      }
    }
  }

  // ---------------------------------------------------------------------------------------------
  // The index refines the scan.
  // ---------------------------------------------------------------------------------------------

  /** A request as it reaches the query: names come lower-cased, and a namespace label has no dot. */
  predicate LowerRequest(r: RecordRequest) {
    Lower(r.service) == r.service && Lower(r.namespace) == r.namespace
  }

  /** No listed Endpoints object of this service holds an address. */
  ghost predicate NoAddresses(svc: Service, endpointsList: seq<Endpoints>) {
    forall ep, sub :: ep in endpointsList && ep.name == svc.name && ep.namespace == svc.namespace && sub in ep.subsets
      ==> sub.addresses == []
  }

  /** The service as a scan over everything sees it: hidden, when the option asks, by its own
      endpoints for an exact request and only by a wholly empty cluster for a wildcard one. */
  ghost predicate Hidden(k: Kube, r: RecordRequest, svc: Service) {
    && k.ignoreEmptyService && !Headless(svc) && !svc.svcType.ExternalNameService?
    && if Exact(r) then NoAddresses(svc, k.endpoints) else AddressCount(k.endpoints) == 0
  }

  ghost function ScanAnswers(k: Kube, r: RecordRequest, zone: Name, svc: Service): seq<Answer> {
    if Selected(k, r, svc) && !Hidden(k, r, svc) then Offers(k, r, zone, k.endpoints, svc) else []
  }

  /** The same query without any index. */
  ghost function FoundByScan(k: Kube, r: RecordRequest, zone: Name): Lookup {
    if !Wildcard(r.namespace) && !k.NamespaceExposed(r.namespace) then Lookup([], NoItems)
    else if r.service == "" then Lookup([], NoError)
    else
      var answers := FlatMap((svc: Service) => ScanAnswers(k, r, zone, svc), k.services);
      Lookup(answers, if answers == [] then DefaultError(k, r) else NoError)
  }

  lemma AddressCountIff(endpointsList: seq<Endpoints>)
    ensures AddressCount(endpointsList) == 0 <==>
            forall ep, sub :: ep in endpointsList && sub in ep.subsets ==> sub.addresses == []
  {
    var ips := (ep: Endpoints) => AddressIPs(ep.subsets);
    if AddressCount(endpointsList) == 0 {
      forall ep, sub | ep in endpointsList && sub in ep.subsets
        ensures sub.addresses == []
      {
        if sub.addresses != [] {
          assert sub.addresses[0] in sub.addresses;
          AddressIPsIff(ep.subsets, sub.addresses[0].ip);
          FlatMapMember(ips, endpointsList, ep, sub.addresses[0].ip);
        }
      }
    } else {
      var ip := FlatMap(ips, endpointsList)[0];
      var ep := FlatMapSource(ips, endpointsList, ip);
      AddressIPsIff(ep.subsets, ip);
    }
  }

  /** An exact request selects a service only when its key is the request's. */
  lemma SelectedKey(k: Kube, r: RecordRequest, svc: Service)
    requires WellFormedService(k, svc) && Exact(r) && LowerRequest(r) && Selected(k, r, svc)
    ensures svc.name == r.service && svc.namespace == r.namespace
    ensures svc.index == NameKey(r.service, r.namespace)
  {
  }

  /** The index lists the endpoints of exactly the named service. */
  lemma IndexedEndpoints(k: Kube, svc: Service)
    requires WellFormed(k) && WellFormedService(k, svc)
    ensures forall ep :: ep in k.EpIndex(svc.index) <==>
              ep in k.endpoints && ep.name == svc.name && ep.namespace == svc.namespace
  {
    forall ep | ep in k.endpoints
      ensures ep.index == svc.index <==> ep.name == svc.name && ep.namespace == svc.namespace
    {
      NameKeyInjective(ep.name, ep.namespace, svc.name, svc.namespace);
    }
  }

  lemma IndexedService(k: Kube, r: RecordRequest, zone: Name, svc: Service)
    requires WellFormed(k) && svc in k.services && Exact(r) && LowerRequest(r)
    ensures ServiceAnswers(k, r, zone, EndpointsCandidates(k, r), svc) == ScanAnswers(k, r, zone, svc)
  {
    if Selected(k, r, svc) {
      SelectedKey(k, r, svc);
      IndexedEndpoints(k, svc);
      AddressCountIff(k.EpIndex(svc.index));
      assert Suppressed(k, svc, k.EpIndex(svc.index)) <==> Hidden(k, r, svc);
      FlatMapFilter((ep: Endpoints) => EndpointsAnswers(k, r, zone, svc, ep),
                    (ep: Endpoints) => ep.index == svc.index, k.endpoints);
    }
  }

  /** Looking services and endpoints up by name and namespace changes neither the answers, nor
      their order, nor the error. */
  lemma IndexRefinesScan(k: Kube, r: RecordRequest, zone: Name)
    requires WellFormed(k) && LowerRequest(r)
    ensures Found(k, r, zone) == FoundByScan(k, r, zone)
  {
    var scan := (svc: Service) => ScanAnswers(k, r, zone, svc);
    var found := (svc: Service) => ServiceAnswers(k, r, zone, EndpointsCandidates(k, r), svc);
    var key := NameKey(r.service, r.namespace);
    if Exact(r) {
      forall svc | svc in k.services
        ensures found(svc) == scan(svc)
        ensures svc.index != key ==> found(svc) == []
      {
        IndexedService(k, r, zone, svc);
        if Selected(k, r, svc) {
          SelectedKey(k, r, svc);
        }
      }
      FlatMapFilter(found, (svc: Service) => svc.index == key, k.services);
    }
    FlatMapCongruence(found, scan, k.services, k.services);
    assert AllAnswers(k, r, zone) == FlatMap(found, ServiceCandidates(k, r));
  }

  // ---------------------------------------------------------------------------------------------
  // The declarative meaning of a query.
  // ---------------------------------------------------------------------------------------------

  /** The requested namespace can be answered at all. */
  predicate Admitted(k: Kube, r: RecordRequest) {
    Wildcard(r.namespace) || k.NamespaceExposed(r.namespace)
  }

  /** a is a proper answer to r: some visible service in the snapshot offers it. */
  ghost predicate Proper(k: Kube, r: RecordRequest, zone: Name, a: Answer) {
    exists svc :: svc in k.services && Selected(k, r, svc) && !Hidden(k, r, svc) &&
      Offer(k, r, zone, svc, k.endpoints, a)
  }

  /** The query answers exactly the proper answers; there is no error when there is an answer; and
      without one the name exists only for an empty service label, or for a wildcard service in a
      named namespace. */
  lemma QueryMeaning(k: Kube, r: RecordRequest, zone: Name)
    requires WellFormed(k) && LowerRequest(r)
    ensures forall a :: a in Found(k, r, zone).answers <==>
              Admitted(k, r) && r.service != "" && Proper(k, r, zone, a)
    ensures Found(k, r, zone).err == NoError <==>
            || Found(k, r, zone).answers != []
            || (Admitted(k, r) && (r.service == "" || (Wildcard(r.service) && !Wildcard(r.namespace))))
    ensures Found(k, r, zone).err != NoError ==> Found(k, r, zone).err == NoItems
  {
    IndexRefinesScan(k, r, zone);
    var scan := (svc: Service) => ScanAnswers(k, r, zone, svc);
    forall a
      ensures a in FlatMap(scan, k.services) <==> Proper(k, r, zone, a)
    {
      if a in FlatMap(scan, k.services) {
        var svc := FlatMapSource(scan, k.services, a);
        OffersIff(k, r, zone, svc, k.endpoints, a);
      }
      if Proper(k, r, zone, a) {
        var svc :| svc in k.services && Selected(k, r, svc) && !Hidden(k, r, svc) &&
            Offer(k, r, zone, svc, k.endpoints, a);
        OffersIff(k, r, zone, svc, k.endpoints, a);
        FlatMapMember(scan, k.services, svc, a);
      }
    }
  }

  /** Every answer's key is the name of the service, or of the endpoint, in an exposed namespace. */
  lemma AnswersExposed(k: Kube, r: RecordRequest, zone: Name, a: Answer)
    requires WellFormed(k) && LowerRequest(r) && a in Found(k, r, zone).answers
    ensures exists svc :: && svc in k.services && k.NamespaceExposed(svc.namespace)
                          && ServiceKey(zone, svc) <= a.key && |a.key| <= |ServiceKey(zone, svc)| + 1
  {
    QueryMeaning(k, r, zone);
    var svc :| svc in k.services && Selected(k, r, svc) && !Hidden(k, r, svc) && Offer(k, r, zone, svc, k.endpoints, a);
    assert ServiceKey(zone, svc) <= a.key;
  }

  // ---------------------------------------------------------------------------------------------
  // Counting: a subset contributes the product of its matching addresses and ports.
  // ---------------------------------------------------------------------------------------------

  function MatchingAddresses(k: Kube, r: RecordRequest, addresses: seq<Address>): seq<Address> {
    Filter((addr: Address) => AddressMatches(k, r, addr), addresses)
  }

  function MatchingPorts(r: RecordRequest, ports: seq<Port>): seq<Port> {
    Filter((p: Port) => PortMatches(r, p), ports)
  }

  lemma {:induction false} PortCount(k: Kube, r: RecordRequest, zone: Name, svc: Service, addr: Address,
                                     ports: seq<Port>)
    ensures |FlatMap((p: Port) => PortAnswers(k, r, zone, svc, addr, p), ports)| == |MatchingPorts(r, ports)|
  {
    if ports != [] {
      PortCount(k, r, zone, svc, addr, ports[1..]);
    }
  }

  lemma {:induction false} AddressesCount(k: Kube, r: RecordRequest, zone: Name, svc: Service, ports: seq<Port>,
                                          addresses: seq<Address>)
    ensures |FlatMap((addr: Address) => AddressAnswers(k, r, zone, svc, ports, addr), addresses)|
            == Product(|MatchingAddresses(k, r, addresses)|, |MatchingPorts(r, ports)|)
  {
    if addresses != [] {
      var addr, rest := addresses[0], addresses[1..];
      AddressesCount(k, r, zone, svc, ports, rest);
      PortCount(k, r, zone, svc, addr, ports);
      var m, n := |MatchingAddresses(k, r, rest)|, |MatchingPorts(r, ports)|;
      assert Product(m + 1, n) == n + Product(m, n);
      assert |MatchingAddresses(k, r, addresses)| == (if AddressMatches(k, r, addr) then m + 1 else m);
    }
  }

  /** Multiplication as repeated addition, so that counting arguments stay linear. */
  function Product(n: nat, m: nat): (r: nat)
    ensures r == n * m
  {
    if n == 0 then 0 else m + Product(n - 1, m)
  }

  lemma ProductCount(k: Kube, r: RecordRequest, zone: Name, svc: Service, sub: Subset)
    ensures |SubsetAnswers(k, r, zone, svc, sub)|
            == |MatchingAddresses(k, r, sub.addresses)| * |MatchingPorts(r, sub.ports)|
  {
    AddressesCount(k, r, zone, svc, sub.ports, sub.addresses);
  }

  /** The number of matching endpoint and port pairs over a list of subsets. */
  function PairCount(k: Kube, r: RecordRequest, subsets: seq<Subset>): nat {
    if subsets == [] then 0
    else |MatchingAddresses(k, r, subsets[0].addresses)| * |MatchingPorts(r, subsets[0].ports)|
         + PairCount(k, r, subsets[1..])
  }

  lemma {:induction false} SubsetsCount(k: Kube, r: RecordRequest, zone: Name, svc: Service, subsets: seq<Subset>)
    ensures |FlatMap((sub: Subset) => SubsetAnswers(k, r, zone, svc, sub), subsets)| == PairCount(k, r, subsets)
  {
    if subsets != [] {
      ProductCount(k, r, zone, svc, subsets[0]);
      SubsetsCount(k, r, zone, svc, subsets[1..]);
    }
  }

  /** The same over the Endpoints objects of one service. */
  function OwnPairs(k: Kube, r: RecordRequest, svc: Service, list: seq<Endpoints>): nat {
    if list == [] then 0
    else (if list[0].name == svc.name && list[0].namespace == svc.namespace
          then PairCount(k, r, list[0].subsets) else 0)
         + OwnPairs(k, r, svc, list[1..])
  }

  lemma {:induction false} EndpointsCount(k: Kube, r: RecordRequest, zone: Name, svc: Service, list: seq<Endpoints>)
    ensures |FlatMap((ep: Endpoints) => EndpointsAnswers(k, r, zone, svc, ep), list)| == OwnPairs(k, r, svc, list)
  {
    if list != [] {
      SubsetsCount(k, r, zone, svc, list[0].subsets);
      EndpointsCount(k, r, zone, svc, list[1..]);
    }
  }

  lemma {:induction false} ClusterCount(k: Kube, r: RecordRequest, zone: Name, svc: Service, ports: seq<Port>)
    ensures |FlatMap((p: Port) => ClusterAnswers(k, r, zone, svc, p), ports)| == |MatchingPorts(r, ports)|
  {
    if ports != [] {
      ClusterCount(k, r, zone, svc, ports[1..]);
    }
  }

  /** How many answers a service gives. */
  function OfferCount(k: Kube, r: RecordRequest, list: seq<Endpoints>, svc: Service): nat {
    if !Selected(k, r, svc) || Suppressed(k, svc, list) then 0
    else if Headless(svc) || r.endpoint != "" then OwnPairs(k, r, svc, list)
    else if svc.svcType.ExternalNameService? then if k.hostKind(svc.externalName).HostName? then 1 else 0
    else |MatchingPorts(r, svc.ports)|
  }

  function TotalCount(k: Kube, r: RecordRequest, list: seq<Endpoints>, services: seq<Service>): nat {
    if services == [] then 0 else OfferCount(k, r, list, services[0]) + TotalCount(k, r, list, services[1..])
  }

  lemma ServiceCount(k: Kube, r: RecordRequest, zone: Name, list: seq<Endpoints>, svc: Service)
    ensures |ServiceAnswers(k, r, zone, list, svc)| == OfferCount(k, r, list, svc)
  {
    EndpointsCount(k, r, zone, svc, list);
    ClusterCount(k, r, zone, svc, svc.ports);
  }

  lemma {:induction false} ServicesCount(k: Kube, r: RecordRequest, zone: Name, list: seq<Endpoints>,
                                         services: seq<Service>)
    ensures |FlatMap((svc: Service) => ServiceAnswers(k, r, zone, list, svc), services)|
            == TotalCount(k, r, list, services)
  {
    if services != [] {
      ServiceCount(k, r, zone, list, services[0]);
      ServicesCount(k, r, zone, list, services[1..]);
    }
  }

  /** How many answers a query gives: over the candidate services, the sum of products of matching
      addresses and ports, of matching ports, or of single aliases. */
  lemma QueryCount(k: Kube, r: RecordRequest, zone: Name)
    requires Admitted(k, r) && r.service != ""
    ensures |Found(k, r, zone).answers| == TotalCount(k, r, EndpointsCandidates(k, r), ServiceCandidates(k, r))
  {
    ServicesCount(k, r, zone, EndpointsCandidates(k, r), ServiceCandidates(k, r));
  }
}
