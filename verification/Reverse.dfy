/** Reverse lookup, and what its names resolve to. */
module Reverse {
  import opened Sequences
  import opened Objects
  import opened Parse
  import opened Backend
  import opened ServiceQuery
  import opened Meaning
  import opened Records
  import opened Transfer
  import opened Agreement

  datatype PointerAnswer = PointerAnswer(host: Name, ttl: nat)

  /** Without a namespaces option a reverse lookup does not ask whether the namespace is exposed. */
  predicate ReverseVisible(k: Kube, ns: string) {
    !(|k.namespaces| > 0 && !k.NamespaceExposed(ns))
  }

  function EndpointPointer(k: Kube, ep: Endpoints, addr: Address): PointerAnswer {
    PointerAnswer([k.Hostname(addr), ep.name, ep.namespace, SVC] + k.primaryZone, k.ttl)
  }

  function AddressPointers(k: Kube, ip: string, ep: Endpoints, addr: Address): seq<PointerAnswer> {
    if addr.ip == ip then [EndpointPointer(k, ep, addr)] else []
  }

  function SubsetPointers(k: Kube, ip: string, ep: Endpoints, sub: Subset): seq<PointerAnswer> {
    FlatMap((addr: Address) => AddressPointers(k, ip, ep, addr), sub.addresses)
  }

  function EndpointsPointers(k: Kube, ip: string, ep: Endpoints): seq<PointerAnswer> {
    if ReverseVisible(k, ep.namespace) then FlatMap((sub: Subset) => SubsetPointers(k, ip, ep, sub), ep.subsets) else []
  }

  /** The services a reverse lookup may name, in index order. */
  function PointedServices(k: Kube, ip: string): seq<Service> {
    Filter((s: Service) => ReverseVisible(k, s.namespace), k.SvcIndexReverse(ip))
  }

  /** The first service with this address, or else every endpoint with it. */
  function Pointers(k: Kube, ip: string): seq<PointerAnswer> {
    var services := PointedServices(k, ip);
    if services != [] then
      [PointerAnswer(ServiceName(k.primaryZone, services[0].name, services[0].namespace), k.ttl)]
    else
      FlatMap((ep: Endpoints) => EndpointsPointers(k, ip, ep), k.EpIndexReverse(ip))
  }

  method ServiceRecordForIP(k: Kube, ip: string) returns (svcs: seq<PointerAnswer>)
    ensures svcs == Pointers(k, ip)
  {
    var services := k.SvcIndexReverse(ip);
    ghost var visible := (s: Service) => ReverseVisible(k, s.namespace);
    for i := 0 to |services|
      invariant Filter(visible, services) == Filter(visible, services[i..])
    {
      var service := services[i];
      assert services[i..][0] == service && services[i..][1..] == services[i + 1..];
      if |k.namespaces| > 0 && !k.NamespaceExposed(service.namespace) {
        continue;
      }
      return [PointerAnswer([service.name, service.namespace, SVC] + k.primaryZone, k.ttl)];
    }
    assert PointedServices(k, ip) == [];
    svcs := [];
    var endpointsList := k.EpIndexReverse(ip);
    ghost var step := (ep: Endpoints) => EndpointsPointers(k, ip, ep);
    for e := 0 to |endpointsList|
      invariant svcs == FlatMap(step, endpointsList[..e])
    {
      FlatMapNext(step, endpointsList, e);
      var ep := endpointsList[e];
      if |k.namespaces| > 0 && !k.NamespaceExposed(ep.namespace) {
        continue;
      }
      var found := CollectPointers(k, ip, ep);
      svcs := svcs + found;
    }
    assert endpointsList[..|endpointsList|] == endpointsList;
  }

  method CollectPointers(k: Kube, ip: string, ep: Endpoints) returns (svcs: seq<PointerAnswer>)
    ensures svcs == FlatMap((sub: Subset) => SubsetPointers(k, ip, ep, sub), ep.subsets)
  {
    ghost var step := (sub: Subset) => SubsetPointers(k, ip, ep, sub);
    svcs := [];
    for s := 0 to |ep.subsets|
      invariant svcs == FlatMap(step, ep.subsets[..s])
    {
      FlatMapNext(step, ep.subsets, s);
      var eps := ep.subsets[s];
      ghost var before := svcs;
      ghost var inner := (addr: Address) => AddressPointers(k, ip, ep, addr);
      for a := 0 to |eps.addresses|
        invariant svcs == before + FlatMap(inner, eps.addresses[..a])
      {
        FlatMapAppend(before, inner, eps.addresses, a);
        var addr := eps.addresses[a];
        if addr.ip == ip {
          svcs := svcs + [PointerAnswer([k.Hostname(addr), ep.name, ep.namespace, SVC] + k.primaryZone, k.ttl)];
        }
      }
      assert eps.addresses[..|eps.addresses|] == eps.addresses;
    }
    assert ep.subsets[..|ep.subsets|] == ep.subsets;
  }

  // ---------------------------------------------------------------------------------------------
  // Which names a reverse lookup gives.
  // ---------------------------------------------------------------------------------------------

  /** addr of ep is one of the addresses the lookup must name. */
  ghost predicate PointsAt(k: Kube, ip: string, ep: Endpoints, addr: Address) {
    && ep in k.endpoints && ReverseVisible(k, ep.namespace) && addr.ip == ip
    && exists sub :: sub in ep.subsets && addr in sub.addresses
  }

  /** When no visible service has the address, the lookup names exactly its visible endpoints. */
  lemma EndpointPointersIff(k: Kube, ip: string, x: PointerAnswer)
    requires WellFormed(k) && PointedServices(k, ip) == []
    ensures x in Pointers(k, ip) <==> exists ep, addr :: PointsAt(k, ip, ep, addr) && x == EndpointPointer(k, ep, addr)
  {
    var step := (ep: Endpoints) => EndpointsPointers(k, ip, ep);
    if x in Pointers(k, ip) {
      var ep := FlatMapSource(step, k.EpIndexReverse(ip), x);
      var sub := FlatMapSource((s: Subset) => SubsetPointers(k, ip, ep, s), ep.subsets, x);
      var addr := FlatMapSource((a: Address) => AddressPointers(k, ip, ep, a), sub.addresses, x);
      assert PointsAt(k, ip, ep, addr);
    }
    if ep, addr :| PointsAt(k, ip, ep, addr) && x == EndpointPointer(k, ep, addr) {
      var sub :| sub in ep.subsets && addr in sub.addresses;
      FlatMapMember((a: Address) => AddressPointers(k, ip, ep, a), sub.addresses, addr, x);
      FlatMapMember((s: Subset) => SubsetPointers(k, ip, ep, s), ep.subsets, sub, x);
      AddressIPsIff(ep.subsets, ip);
      FlatMapMember(step, k.EpIndexReverse(ip), ep, x);
    }
  }

  // ---------------------------------------------------------------------------------------------
  // Reverse, then forward.
  // ---------------------------------------------------------------------------------------------

  /** At most one service per name and namespace. */
  ghost predicate UniqueServices(k: Kube) {
    forall s, t :: s in k.services && t in k.services && s.name == t.name && s.namespace == t.namespace ==> s == t
  }

  /** The address is one the service itself answers with: its cluster address or, without one, one
      of its endpoints. Addresses it only has as external addresses do not count. */
  ghost predicate OwnAddress(k: Kube, svc: Service, ip: string) {
    if Headless(svc) then exists sub, addr :: Backs(k, svc, sub, addr) && addr.ip == ip
    else svc.clusterIP == ip && !svc.svcType.ExternalNameService?
  }

  /** A service name's address records all come from the service of that name. */
  lemma EmittedBySelf(k: Kube, svc: Service, ip: string)
    requires WellFormed(k) && UniqueServices(k) && svc in k.services && !k.hostKind(ip).HostName?
    ensures AddressRecordOf(k, ServiceName(k.primaryZone, svc.name, svc.namespace), ip) in TransferRecords(k,
            k.primaryZone) <==>
            k.NamespaceExposed(svc.namespace) && OwnAddress(k, svc, ip)
  {
    var zone := k.primaryZone;
    var owner := ServiceName(zone, svc.name, svc.namespace);
    TransferAddressIff(k, zone, owner, ip);
    assert EmitsAddress(k, zone, svc, owner, ip) <==> k.NamespaceExposed(svc.namespace) && OwnAddress(k, svc, ip);
    if s :| s in k.services && EmitsAddress(k, zone, s, owner, ip) {
      OwnerOf(k, zone, svc, s, ip);
    }
  }

  lemma OwnerOf(k: Kube, zone: Name, svc: Service, s: Service, ip: string)
    requires WellFormed(k) && s in k.services
    requires EmitsAddress(k, zone, s, ServiceName(zone, svc.name, svc.namespace), ip)
    ensures s.name == svc.name && s.namespace == svc.namespace
  {
    var owner := ServiceName(zone, svc.name, svc.namespace);
    var host := EmittedOwner(k, zone, s, owner, ip);
    assert |EndpointName(zone, host, s.name, s.namespace)| == |owner| + 1;
    var base := ServiceName(zone, s.name, s.namespace);
    assert owner[0] == svc.name && owner[1] == svc.namespace && base[0] == s.name && base[1] == s.namespace;
  }

  /** The name given for a service resolves back to the address exactly when the address is the
      service's own, its namespace is exposed, and it is not hidden as empty. */
  lemma ReverseServiceForward(k: Kube, ip: string)
    requires WellFormed(k) && UniqueServices(k) && ForwardZone(k.primaryZone) && !k.hostKind(ip).HostName?
    requires PointedServices(k, ip) != []
    ensures |Pointers(k, ip)| == 1
    ensures var svc := PointedServices(k, ip)[0];
            && svc in k.services && (svc.clusterIP == ip || ip in svc.externalIPs)
            && Pointers(k, ip)[0].host == ServiceName(k.primaryZone, svc.name, svc.namespace)
            && ProperName(Pointers(k, ip)[0].host)
            && (AnswersHost(k, Pointers(k, ip)[0].host, k.primaryZone, ip) <==>
                  k.NamespaceExposed(svc.namespace) && OwnAddress(k, svc, ip) && Unhidden(k, svc.name, svc.namespace))
  {
    var svc := PointedServices(k, ip)[0];
    assert svc in PointedServices(k, ip);
    assert svc in k.SvcIndexReverse(ip);
    assert WellFormedService(k, svc);
    ServiceNameAgreement(k, k.primaryZone, svc.name, svc.namespace, ip);
    EmittedBySelf(k, svc, ip);
  }

  lemma EndpointServed(k: Kube, zone: Name, ep: Endpoints, addr: Address, svc: Service,
                       r: RecordRequest) returns (a: Answer)
    requires WellFormed(k) && PointsAt(k, addr.ip, ep, addr)
    requires svc in k.services && svc.name == ep.name && svc.namespace == ep.namespace &&
             k.NamespaceExposed(ep.namespace)
    requires r == EndpointRequest(k.Hostname(addr), ep.name, ep.namespace)
    ensures a in Found(k, r, zone).answers && a.host == addr.ip
  {
    var sub :| sub in ep.subsets && addr in sub.addresses;
    var p := sub.ports[0];
    a := EndpointAnswer(k, zone, svc, addr, p);
    assert AddressMatches(k, r, addr) && PortMatches(r, p);
    assert EndpointOffer(k, r, zone, svc, k.endpoints, a);
    assert Selected(k, r, svc);
    assert !NoAddresses(svc, k.endpoints) by {
      assert sub.addresses != [];
    }
    QueryMeaning(k, r, zone);
    assert Proper(k, r, zone, a);
  }

  /** An answered exact request names a service in an exposed namespace. */
  lemma AnsweredService(k: Kube, zone: Name, r: RecordRequest, a: Answer) returns (svc: Service)
    requires WellFormed(k) && Exact(r) && LowerRequest(r) && a in Found(k, r, zone).answers
    ensures svc in k.services && svc.name == r.service && svc.namespace == r.namespace &&
            k.NamespaceExposed(r.namespace)
  {
    QueryMeaning(k, r, zone);
    svc :| svc in k.services && Selected(k, r, svc) && !Hidden(k, r, svc) && Offer(k, r, zone, svc, k.endpoints, a);
    SelectedKey(k, r, svc);
  }

  /** The name given for an endpoint resolves back to the address exactly when a service of that
      name exists in an exposed namespace; being empty cannot hide it. */
  lemma ReverseEndpointForward(k: Kube, ip: string, ep: Endpoints, addr: Address)
    requires WellFormed(k) && ForwardZone(k.primaryZone) && PointsAt(k, ip, ep, addr)
    requires ExactLabel(ep.name) && ExactLabel(ep.namespace)
    ensures ProperName(EndpointPointer(k, ep, addr).host)
    ensures AnswersHost(k, EndpointPointer(k, ep, addr).host, k.primaryZone, ip) <==>
            && k.NamespaceExposed(ep.namespace)
            && exists svc :: svc in k.services && svc.name == ep.name && svc.namespace == ep.namespace
  {
    var zone, host := k.primaryZone, k.Hostname(addr);
    var owner, r := EndpointName(zone, host, ep.name, ep.namespace), EndpointRequest(host, ep.name, ep.namespace);
    assert WellFormedEndpoints(k, ep) && ExactLabel(host);
    QueryEndpoint(k, zone, host, ep.name, ep.namespace);
    if AnswersHost(k, owner, zone, ip) {
      var a :| a in RecordsFor(k, owner, zone).answers && a.host == ip;
      var svc := AnsweredService(k, zone, r, a);
    }
    if svc :| && k.NamespaceExposed(ep.namespace)
              && svc in k.services && svc.name == ep.name && svc.namespace == ep.namespace {
      var a := EndpointServed(k, zone, ep, addr, svc, r);
    }
  }
}
