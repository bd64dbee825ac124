/** Answering a request from the service and endpoint caches. */
module ServiceQuery {
  import opened Sequences
  import opened Objects
  import opened Parse
  import opened Backend

  // ---------------------------------------------------------------------------------------------
  // The query as a function: one step function per loop level.
  // ---------------------------------------------------------------------------------------------

  predicate PortMatches(r: RecordRequest, p: Port) {
    Match(r.port, p.name) && Match(r.protocol, p.protocol)
  }

  predicate AddressMatches(k: Kube, r: RecordRequest, addr: Address) {
    r.endpoint != "" ==> Match(r.endpoint, k.Hostname(addr))
  }

  function ServiceKey(zone: Name, svc: Service): seq<string> {
    ZonePath(zone, QUERY_PREFIX) + [SVC, svc.namespace, svc.name]
  }

  function EndpointAnswer(k: Kube, zone: Name, svc: Service, addr: Address, p: Port): Answer {
    Answer(addr.ip, p.port, k.ttl, ServiceKey(zone, svc) + [k.Hostname(addr)])
  }

  function ClusterAnswer(k: Kube, zone: Name, svc: Service, p: Port): Answer {
    Answer(svc.clusterIP, p.port, k.ttl, ServiceKey(zone, svc))
  }

  function ExternalAnswer(k: Kube, zone: Name, svc: Service): Answer {
    Answer(svc.externalName, 0, k.ttl, ServiceKey(zone, svc))
  }

  function PortAnswers(k: Kube, r: RecordRequest, zone: Name, svc: Service, addr: Address, p: Port): seq<Answer> {
    if PortMatches(r, p) then [EndpointAnswer(k, zone, svc, addr, p)] else []
  }

  function AddressAnswers(k: Kube, r: RecordRequest, zone: Name, svc: Service, ports: seq<Port>,
                          addr: Address): seq<Answer> {
    if AddressMatches(k, r, addr) then FlatMap((p: Port) => PortAnswers(k, r, zone, svc, addr, p), ports) else []
  }

  function SubsetAnswers(k: Kube, r: RecordRequest, zone: Name, svc: Service, sub: Subset): seq<Answer> {
    FlatMap((addr: Address) => AddressAnswers(k, r, zone, svc, sub.ports, addr), sub.addresses)
  }

  function EndpointsAnswers(k: Kube, r: RecordRequest, zone: Name, svc: Service, ep: Endpoints): seq<Answer> {
    if ep.name == svc.name && ep.namespace == svc.namespace
    then FlatMap((sub: Subset) => SubsetAnswers(k, r, zone, svc, sub), ep.subsets) else []
  }

  function ClusterAnswers(k: Kube, r: RecordRequest, zone: Name, svc: Service, p: Port): seq<Answer> {
    if PortMatches(r, p) then [ClusterAnswer(k, zone, svc, p)] else []
  }

  function AddressCount(endpointsList: seq<Endpoints>): nat {
    |FlatMap((ep: Endpoints) => AddressIPs(ep.subsets), endpointsList)|
  }

  predicate Headless(svc: Service) { svc.clusterIP == CLUSTER_IP_NONE }

  /** Hidden by the ignore-empty option: a ClusterIP service none of the listed endpoints can serve. */
  predicate Suppressed(k: Kube, svc: Service, endpointsList: seq<Endpoints>) {
    k.ignoreEmptyService && !Headless(svc) && !svc.svcType.ExternalNameService? && AddressCount(endpointsList) == 0
  }

  predicate Selected(k: Kube, r: RecordRequest, svc: Service) {
    && Match(r.namespace, svc.namespace) && Match(r.service, svc.name)
    && (Wildcard(r.namespace) ==> k.NamespaceExposed(svc.namespace))
  }

  /** What one selected, visible service contributes. */
  function Offers(k: Kube, r: RecordRequest, zone: Name, endpointsList: seq<Endpoints>, svc: Service): seq<Answer> {
    if Headless(svc) || r.endpoint != "" then
      FlatMap((ep: Endpoints) => EndpointsAnswers(k, r, zone, svc, ep), endpointsList)
    else if svc.svcType.ExternalNameService? then
      if k.hostKind(svc.externalName).HostName? then [ExternalAnswer(k, zone, svc)] else []
    else
      FlatMap((p: Port) => ClusterAnswers(k, r, zone, svc, p), svc.ports)
  }

  function ServiceAnswers(k: Kube, r: RecordRequest, zone: Name, endpointsList: seq<Endpoints>,
                          svc: Service): seq<Answer> {
    if Selected(k, r, svc) && !Suppressed(k, svc, endpointsList)
    then Offers(k, r, zone, endpointsList, svc) else []
  }

  /** The request names one service exactly. */
  predicate Exact(r: RecordRequest) {
    !Wildcard(r.service) && !Wildcard(r.namespace)
  }

  function ServiceCandidates(k: Kube, r: RecordRequest): seq<Service> {
    if Exact(r) then k.SvcIndex(NameKey(r.service, r.namespace)) else k.services
  }

  function EndpointsCandidates(k: Kube, r: RecordRequest): seq<Endpoints> {
    if Exact(r) then k.EpIndex(NameKey(r.service, r.namespace)) else k.endpoints
  }

  function AllAnswers(k: Kube, r: RecordRequest, zone: Name): seq<Answer> {
    var endpointsList := EndpointsCandidates(k, r);
    FlatMap((svc: Service) => ServiceAnswers(k, r, zone, endpointsList, svc), ServiceCandidates(k, r))
  }

  /** The error reported when nothing matches: a wildcard service in a named, exposed namespace has no data. */
  function DefaultError(k: Kube, r: RecordRequest): Error {
    if Wildcard(r.service) && !Wildcard(r.namespace) && k.NamespaceExposed(r.namespace) then NoError else NoItems
  }

  function Found(k: Kube, r: RecordRequest, zone: Name): Lookup {
    if !Wildcard(r.namespace) && !k.NamespaceExposed(r.namespace) then Lookup([], NoItems)
    else if r.service == "" then Lookup([], NoError)
    else
      var answers := AllAnswers(k, r, zone);
      Lookup(answers, if answers == [] then DefaultError(k, r) else NoError)
  }

  // ---------------------------------------------------------------------------------------------
  // The query as it runs.
  // ---------------------------------------------------------------------------------------------

  /** Counts the addresses the listed endpoints hold. */
  method CountAddresses(endpointsList: seq<Endpoints>) returns (podsCount: nat)
    ensures podsCount == AddressCount(endpointsList)
  {
    podsCount := 0;
    var ips := (ep: Endpoints) => AddressIPs(ep.subsets);
    for e := 0 to |endpointsList|
      invariant podsCount == |FlatMap(ips, endpointsList[..e])|
    {
      FlatMapNext(ips, endpointsList, e);
      var ep := endpointsList[e];
      ghost var before := podsCount;
      for s := 0 to |ep.subsets|
        invariant podsCount == before + |FlatMap(SubsetIPs, ep.subsets[..s])|
      {
        FlatMapNext(SubsetIPs, ep.subsets, s);
        podsCount := podsCount + |ep.subsets[s].addresses|;
      }
      assert ep.subsets[..|ep.subsets|] == ep.subsets;
    }
    assert endpointsList[..|endpointsList|] == endpointsList;
  }

  /** Runs over the endpoints of one service. */
  method CollectEndpoints(k: Kube, r: RecordRequest, zone: Name, svc: Service, endpointsList: seq<Endpoints>)
    returns (services: seq<Answer>)
    ensures services == FlatMap((ep: Endpoints) => EndpointsAnswers(k, r, zone, svc, ep), endpointsList)
  {
    ghost var step := (ep: Endpoints) => EndpointsAnswers(k, r, zone, svc, ep);
    services := [];
    for e := 0 to |endpointsList|
      invariant services == FlatMap(step, endpointsList[..e])
    {
      FlatMapNext(step, endpointsList, e);
      var ep := endpointsList[e];
      if ep.name != svc.name || ep.namespace != svc.namespace {
        continue;
      }
      var found := CollectSubsets(k, r, zone, svc, ep.subsets);
      services := services + found;
    }
    assert endpointsList[..|endpointsList|] == endpointsList;
  }

  method CollectSubsets(k: Kube, r: RecordRequest, zone: Name, svc: Service, subsets: seq<Subset>)
    returns (services: seq<Answer>)
    ensures services == FlatMap((sub: Subset) => SubsetAnswers(k, r, zone, svc, sub), subsets)
  {
    ghost var step := (sub: Subset) => SubsetAnswers(k, r, zone, svc, sub);
    services := [];
    for s := 0 to |subsets|
      invariant services == FlatMap(step, subsets[..s])
    {
      FlatMapNext(step, subsets, s);
      var found := CollectAddresses(k, r, zone, svc, subsets[s]);
      services := services + found;
    }
    assert subsets[..|subsets|] == subsets;
  }

  method CollectAddresses(k: Kube, r: RecordRequest, zone: Name, svc: Service, eps: Subset)
    returns (services: seq<Answer>)
    ensures services == SubsetAnswers(k, r, zone, svc, eps)
  {
    ghost var step := (addr: Address) => AddressAnswers(k, r, zone, svc, eps.ports, addr);
    services := [];
    for a := 0 to |eps.addresses|
      invariant services == FlatMap(step, eps.addresses[..a])
    {
      FlatMapNext(step, eps.addresses, a);
      var addr := eps.addresses[a];
      if r.endpoint != "" {
        if !Match(r.endpoint, k.Hostname(addr)) {
          continue;
        }
      }
      var found := CollectPorts(k, r, zone, svc, addr, eps.ports);
      services := services + found;
    }
    assert eps.addresses[..|eps.addresses|] == eps.addresses;
  }

  method CollectPorts(k: Kube, r: RecordRequest, zone: Name, svc: Service, addr: Address, ports: seq<Port>)
    returns (services: seq<Answer>)
    ensures services == FlatMap((p: Port) => PortAnswers(k, r, zone, svc, addr, p), ports)
  {
    ghost var step := (p: Port) => PortAnswers(k, r, zone, svc, addr, p);
    services := [];
    for i := 0 to |ports|
      invariant services == FlatMap(step, ports[..i])
    {
      FlatMapNext(step, ports, i);
      var p := ports[i];
      if !(Match(r.port, p.name) && Match(r.protocol, p.protocol)) {
        continue;
      }
      var s := Answer(addr.ip, p.port, k.ttl, []);
      s := s.(key := ZonePath(zone, QUERY_PREFIX) + [SVC, svc.namespace, svc.name] + [k.Hostname(addr)]);
      services := services + [s];
    }
    assert ports[..|ports|] == ports;
  }

  method CollectClusterPorts(k: Kube, r: RecordRequest, zone: Name, svc: Service) returns (services: seq<Answer>)
    ensures services == FlatMap((p: Port) => ClusterAnswers(k, r, zone, svc, p), svc.ports)
  {
    ghost var step := (p: Port) => ClusterAnswers(k, r, zone, svc, p);
    services := [];
    for j := 0 to |svc.ports|
      invariant services == FlatMap(step, svc.ports[..j])
    {
      FlatMapNext(step, svc.ports, j);
      var p := svc.ports[j];
      if !(Match(r.port, p.name) && Match(r.protocol, p.protocol)) {
        continue;
      }
      var s := Answer(svc.clusterIP, p.port, k.ttl, []);
      s := s.(key := ZonePath(zone, QUERY_PREFIX) + [SVC, svc.namespace, svc.name]);
      services := services + [s];
    }
    assert svc.ports[..|svc.ports|] == svc.ports;
  }

  method FindServices(k: Kube, r: RecordRequest, zone: Name) returns (services: seq<Answer>, err: Error)
    ensures Lookup(services, err) == Found(k, r, zone)
  {
    if !Wildcard(r.namespace) && !k.NamespaceExposed(r.namespace) {
      return [], NoItems;
    }
    if r.service == "" {
      if k.NamespaceExposed(r.namespace) || Wildcard(r.namespace) {
        return [], NoError;
      }
      return [], NoItems;
    }

    services, err := [], NoItems;
    if Wildcard(r.service) && !Wildcard(r.namespace) {
      if k.NamespaceExposed(r.namespace) {
        err := NoError;
      }
    }

    var serviceList, allEndpoints;
    if Wildcard(r.service) || Wildcard(r.namespace) {
      serviceList, allEndpoints := k.services, k.endpoints;
    } else {
      var idx := NameKey(r.service, r.namespace);
      serviceList, allEndpoints := k.SvcIndex(idx), k.EpIndex(idx);
    }
    var endpointsList: seq<Endpoints> := [];  // filled on first use

    ghost var step := (svc: Service) => ServiceAnswers(k, r, zone, allEndpoints, svc);
    for i := 0 to |serviceList|
      invariant endpointsList == [] || endpointsList == allEndpoints
      invariant services == FlatMap(step, serviceList[..i])
      invariant err == if services == [] then DefaultError(k, r) else NoError
    {
      FlatMapNext(step, serviceList, i);
      var svc := serviceList[i];
      if !(Match(r.namespace, svc.namespace) && Match(r.service, svc.name)) {
        continue;
      }
      if Wildcard(r.namespace) && !k.NamespaceExposed(svc.namespace) {
        continue;
      }
      if k.ignoreEmptyService && svc.clusterIP != CLUSTER_IP_NONE && !svc.svcType.ExternalNameService? {
        var podsCount := CountAddresses(allEndpoints);
        if podsCount == 0 {
          continue;
        }
      }

      if svc.clusterIP == CLUSTER_IP_NONE || r.endpoint != "" {
        if endpointsList == [] {
          endpointsList := allEndpoints;
        }
        var found := CollectEndpoints(k, r, zone, svc, endpointsList);
        if found != [] {
          err := NoError;
        }
        services := services + found;
        continue;
      }

      if svc.svcType.ExternalNameService? {
        var s := Answer(svc.externalName, 0, k.ttl, ZonePath(zone, QUERY_PREFIX) + [SVC, svc.namespace, svc.name]);
        if k.hostKind(s.host).HostName? {
          services := services + [s];
          err := NoError;
        }
        continue;
      }

      var found := CollectClusterPorts(k, r, zone, svc);
      if found != [] {
        err := NoError;
      }
      services := services + found;
    }
    assert serviceList[..|serviceList|] == serviceList;
  }
}
