/** The zone transfer and the query answer alike. */
module Agreement {
  import opened Sequences
  import opened Text
  import opened Objects
  import opened Parse
  import opened Backend
  import opened ServiceQuery
  import opened Meaning
  import opened Records
  import opened Transfer

  // ---------------------------------------------------------------------------------------------
  // Queries for the names a zone publishes.
  // ---------------------------------------------------------------------------------------------

  /** A zone outside the reverse trees. */
  predicate ForwardZone(zone: Name) {
    ProperName(zone) && !IsReverse(["", ""] + LowerAll(zone))
  }

  /** A label an exact query can carry: present, lower case, no wildcard. */
  predicate ExactLabel(s: string) {
    s != "" && Lower(s) == s && !Wildcard(s)
  }

  predicate LowerName(below: Name) {
    ProperName(below) && forall i :: 0 <= i < |below| ==> Lower(below[i]) == below[i]
  }

  function ServiceName(zone: Name, name: string, ns: string): Name {
    [name, ns, SVC] + zone
  }

  /** A service name determines the service's name and namespace. */
  lemma ServiceNameFields(zone: Name, name1: string, ns1: string, name2: string, ns2: string)
    requires ServiceName(zone, name1, ns1) == ServiceName(zone, name2, ns2)
    ensures name1 == name2 && ns1 == ns2
  {
    var a, b := ServiceName(zone, name1, ns1), ServiceName(zone, name2, ns2);
    assert a[0] == name1 && a[1] == ns1 && b[0] == name2 && b[1] == ns2;
  }

  function EndpointName(zone: Name, host: string, name: string, ns: string): Name {
    [host, name, ns, SVC] + zone
  }

  function ServiceRequest(name: string, ns: string): RecordRequest {
    RecordRequest("*", "*", "", name, ns, SVC)
  }

  function EndpointRequest(host: string, name: string, ns: string): RecordRequest {
    RecordRequest("*", "*", host, name, ns, SVC)
  }

  function PortRequest(port: string, protocol: string, name: string, ns: string): RecordRequest {
    RecordRequest(port, protocol, "", name, ns, SVC)
  }

  /** Whether a name is reverse is decided by the zone it ends in, if the label above is no tree. */
  lemma ReverseByZone(below: Name, zone: Name)
    requires below != [] && !TreeLabel(below[|below| - 1])
    ensures IsReverse(below + zone) ==> IsReverse(["", ""] + zone)
  {
    var name, padded := below + zone, ["", ""] + zone;
    if |zone| >= 2 {
      assert name[|name| - 1] == padded[|padded| - 1] == zone[|zone| - 1];
      assert name[|name| - 2] == padded[|padded| - 2] == zone[|zone| - 2];
    } else if |zone| == 1 {
      assert name[|name| - 2] == below[|below| - 1];
    } else {
      assert name[|name| - 1] == below[|below| - 1];
    }
  }

  /** One of the two top labels of a reverse name. */
  predicate TreeLabel(s: string) {
    s == "arpa" || s == "in-addr" || s == "ip6"
  }

  lemma KindLabels()
    ensures Lower(SVC) == SVC && Lower(POD) == POD && !TreeLabel(SVC) && !TreeLabel(POD)
  {
  }

  lemma LowerAllConcat(below: Name, zone: Name)
    ensures LowerAll(below + zone) == LowerAll(below) + LowerAll(zone)
  {
  }

  lemma NotReverse(below: Name, zone: Name)
    requires ForwardZone(zone) && |below| >= 3 && (below[|below| - 1] == SVC || below[|below| - 1] == POD)
    ensures !IsReverse(LowerAll(below + zone))
  {
    LowerAllConcat(below, zone);
    KindLabels();
    ReverseByZone(LowerAll(below), LowerAll(zone));
  }

  lemma TrimBelow(below: Name, zone: Name)
    requires LowerName(below) && below != []
    ensures TrimZone(LowerAll(below + zone), zone) == below
  {
  }

  /** The answer to the request a name below the zone prints. */
  function Asked(k: Kube, below: Name, zone: Name): Lookup
    requires ProperName(below)
  {
    match RequestOf(below)
    case InvalidRequest => Lookup([], InvalidName)
    case Parsed(r) =>
      if !Wildcard(r.namespace) && !k.NamespaceExposed(r.namespace) then Lookup([], NsNotExposed)
      else Found(k, r, zone)
  }

  /** A query for a lower-case name under svc resolves the request its labels print. */
  lemma QueryBelow(k: Kube, below: Name, zone: Name)
    requires ForwardZone(zone) && LowerName(below) && |below| >= 3 && below[|below| - 1] == SVC
    ensures ProperName(below + zone)
    ensures RecordsFor(k, below + zone, zone) == Asked(k, below, zone)
  {
    NotReverse(below, zone);
    TrimBelow(below, zone);
    if RequestOf(below).Parsed? {
      assert RequestOf(below).request.podOrSvc == SVC;
    }
  }

  /** The answer when only the namespace can still be refused. */
  function AskedExact(k: Kube, r: RecordRequest, zone: Name): Lookup {
    if !k.NamespaceExposed(r.namespace) then Lookup([], NsNotExposed) else Found(k, r, zone)
  }

  lemma QueryService(k: Kube, zone: Name, name: string, ns: string)
    requires ForwardZone(zone) && ExactLabel(name) && ExactLabel(ns)
    ensures ProperName(ServiceName(zone, name, ns))
    ensures RecordsFor(k, ServiceName(zone, name, ns), zone) == AskedExact(k, ServiceRequest(name, ns), zone)
  {
    QueryBelow(k, [name, ns, SVC], zone);
  }

  lemma QueryEndpoint(k: Kube, zone: Name, host: string, name: string, ns: string)
    requires ForwardZone(zone) && ExactLabel(host) && ExactLabel(name) && ExactLabel(ns)
    ensures ProperName(EndpointName(zone, host, name, ns))
    ensures RecordsFor(k, EndpointName(zone, host, name, ns), zone)
            == AskedExact(k, EndpointRequest(host, name, ns), zone)
  {
    QueryBelow(k, [host, name, ns, SVC], zone);
  }

  // ---------------------------------------------------------------------------------------------
  // Which address records a transfer holds.
  // ---------------------------------------------------------------------------------------------

  function AddressRecordOf(k: Kube, owner: Name, ip: string): Record
    requires !k.hostKind(ip).HostName?
  {
    if k.hostKind(ip).HostA? then ARecord(owner, ip) else AAAARecord(owner, ip)
  }

  /** addr is one of the addresses in the service's Endpoints objects. */
  ghost predicate Backs(k: Kube, svc: Service, sub: Subset, addr: Address) {
    exists ep :: && ep in k.endpoints && ep.name == svc.name && ep.namespace == svc.namespace
                 && sub in ep.subsets && addr in sub.addresses
  }

  predicate Published(k: Kube, svc: Service) {
    k.NamespaceExposed(svc.namespace) && !svc.svcType.ExternalNameService? && !svc.svcType.OtherService?
  }

  /** The service contributes an address record for owner with this address. */
  ghost predicate EmitsAddress(k: Kube, zone: Name, svc: Service, owner: Name, ip: string) {
    && Published(k, svc)
    && var base := ServiceName(zone, svc.name, svc.namespace);
       if !k.hostKind(svc.clusterIP).HostName? then owner == base && ip == svc.clusterIP
       else exists sub, addr :: && Backs(k, svc, sub, addr) && addr.ip == ip
                                && (|| owner == base
                                    || owner == EndpointName(zone, k.Hostname(addr), svc.name, svc.namespace))
  }

  /** Transfer and query keys denote the same names. */
  lemma ServiceKeyNames(zone: Name, svc: Service)
    ensures Domain(BaseKey(zone, svc)) == ServiceName(zone, svc.name, svc.namespace) == Domain(ServiceKey(zone, svc))
  {
    var below := [SVC, svc.namespace, svc.name];
    DomainOfKey(zone, TRANSFER_PREFIX, below);
    DomainOfKey(zone, QUERY_PREFIX, below);
    assert Reversed(below) == [svc.name, svc.namespace, SVC];
  }

  /** A key with more labels has the name with those labels before it. */
  lemma KeyBelow(zone: Name, prefix: string, svc: Service, more: seq<string>)
    ensures Domain(ZonePath(zone, prefix) + [SVC, svc.namespace, svc.name] + more)
            == Reversed(more) + ServiceName(zone, svc.name, svc.namespace)
  {
    var below := [SVC, svc.namespace, svc.name];
    DomainOfKey(zone, prefix, below + more);
    assert ZonePath(zone, prefix) + below + more == ZonePath(zone, prefix) + (below + more);
    ReversedConcat(below, more);
    assert Reversed(below) == [svc.name, svc.namespace, SVC];
  }

  lemma KeyNames(k: Kube, zone: Name, svc: Service, addr: Address, p: Port)
    ensures Domain(BaseKey(zone, svc)) == ServiceName(zone, svc.name, svc.namespace) == Domain(ServiceKey(zone, svc))
    ensures Domain(EndpointKey(k, zone, svc, addr)) == EndpointName(zone, k.Hostname(addr), svc.name, svc.namespace)
    ensures Domain(EndpointAnswer(k, zone, svc, addr, p).key) == Domain(EndpointKey(k, zone, svc, addr))
    ensures Domain(PortKey(zone, svc, p)) ==
            ["_" + Lower(p.name), "_" + Lower(p.protocol)] + ServiceName(zone, svc.name, svc.namespace)
  {
    ServiceKeyNames(zone, svc);
    KeyBelow(zone, TRANSFER_PREFIX, svc, [k.Hostname(addr)]);
    KeyBelow(zone, QUERY_PREFIX, svc, [k.Hostname(addr)]);
    var port := ["_" + Lower(p.protocol), "_" + Lower(p.name)];
    KeyBelow(zone, TRANSFER_PREFIX, svc, port);
    assert Reversed(port) == ["_" + Lower(p.name), "_" + Lower(p.protocol)];
  }

  /** Locates the endpoint that contributed a record to a headless service. */
  lemma HeadlessSource(k: Kube, zone: Name, svc: Service, rr: Record) returns (sub: Subset, addr: Address)
    requires WellFormed(k) && svc in k.services && rr in HeadlessRecords(k, zone, svc)
    ensures Backs(k, svc, sub, addr)
    ensures rr in EndpointRecords(k, zone, svc, sub.ports, SRVWeight(|sub.addresses|), addr)
  {
    var ep := FlatMapSource((e: Endpoints) => EndpointsRecords(k, zone, svc, e),
                            k.EpIndex(NameKey(svc.name, svc.namespace)), rr);
    sub := FlatMapSource((s: Subset) => SubsetRecords(k, zone, svc, s), ep.subsets, rr);
    var weight := SRVWeight(|sub.addresses|);
    addr := FlatMapSource((x: Address) => EndpointRecords(k, zone, svc, sub.ports, weight, x), sub.addresses, rr);
  }

  lemma HeadlessMember(k: Kube, zone: Name, svc: Service, sub: Subset, addr: Address, rr: Record)
    requires WellFormed(k) && svc in k.services && Backs(k, svc, sub, addr)
    requires rr in EndpointRecords(k, zone, svc, sub.ports, SRVWeight(|sub.addresses|), addr)
    ensures rr in HeadlessRecords(k, zone, svc)
  {
    var ep :| && ep in k.endpoints && ep.name == svc.name && ep.namespace == svc.namespace
              && sub in ep.subsets && addr in sub.addresses;
    IndexedEndpoints(k, svc);
    var weight := SRVWeight(|sub.addresses|);
    FlatMapMember((x: Address) => EndpointRecords(k, zone, svc, sub.ports, weight, x), sub.addresses, addr, rr);
    FlatMapMember((s: Subset) => SubsetRecords(k, zone, svc, s), ep.subsets, sub, rr);
    FlatMapMember((e: Endpoints) => EndpointsRecords(k, zone, svc, e), k.EpIndex(svc.index), ep, rr);
  }

  /** The address records of one endpoint are those of its own name and of its service's. */
  lemma EndpointAddressIff(k: Kube, zone: Name, svc: Service, ports: seq<Port>, weight: nat, addr: Address,
                           owner: Name, ip: string)
    requires !k.hostKind(ip).HostName?
    ensures AddressRecordOf(k, owner, ip) in EndpointRecords(k, zone, svc, ports, weight, addr) <==>
            && addr.ip == ip
            && var base := ServiceName(zone, svc.name, svc.namespace);
               owner == base || owner == EndpointName(zone, k.Hostname(addr), svc.name, svc.namespace)
  {
    KeyNames(k, zone, svc, addr, Port("", "", 0));
    var rr := AddressRecordOf(k, owner, ip);
    var step := (p: Port) => EndpointPortRecords(k, zone, svc, addr, weight, p);
    if rr in FlatMap(step, ports) {
      var p := FlatMapSource(step, ports, rr);
      assert false;
    }
  }

  lemma ClusterAddressIff(k: Kube, zone: Name, svc: Service, owner: Name, ip: string)
    requires !k.hostKind(ip).HostName?
    ensures AddressRecordOf(k, owner, ip) in ClusterRecords(k, zone, svc) <==>
            ip == svc.clusterIP && owner == ServiceName(zone, svc.name, svc.namespace)
  {
    KeyNames(k, zone, svc, Address("", "", "", ""), Port("", "", 0));
    var rr := AddressRecordOf(k, owner, ip);
    var step := (p: Port) => ClusterPortRecords(k, zone, svc, p);
    if rr in FlatMap(step, svc.ports) {
      var p := FlatMapSource(step, svc.ports, rr);
      assert false;
    }
  }

  lemma ServiceAddressIff(k: Kube, zone: Name, svc: Service, owner: Name, ip: string)
    requires WellFormed(k) && svc in k.services && !k.hostKind(ip).HostName?
    ensures AddressRecordOf(k, owner, ip) in ServiceRecords(k, zone, svc) <==> EmitsAddress(k, zone, svc, owner, ip)
  {
    var rr := AddressRecordOf(k, owner, ip);
    if Published(k, svc) {
      if !k.hostKind(svc.clusterIP).HostName? {
        ClusterAddressIff(k, zone, svc, owner, ip);
      } else {
        if rr in HeadlessRecords(k, zone, svc) {
          var sub, addr := HeadlessSource(k, zone, svc, rr);
          EndpointAddressIff(k, zone, svc, sub.ports, SRVWeight(|sub.addresses|), addr, owner, ip);
        }
        if EmitsAddress(k, zone, svc, owner, ip) {
          var base := ServiceName(zone, svc.name, svc.namespace);
          var sub, addr :| && Backs(k, svc, sub, addr) && addr.ip == ip
                           && (owner == base || owner == EndpointName(zone, k.Hostname(addr), svc.name, svc.namespace));
          EndpointAddressIff(k, zone, svc, sub.ports, SRVWeight(|sub.addresses|), addr, owner, ip);
          HeadlessMember(k, zone, svc, sub, addr, rr);
        }
      }
    }
  }

  lemma TransferAddressIff(k: Kube, zone: Name, owner: Name, ip: string)
    requires WellFormed(k) && !k.hostKind(ip).HostName?
    ensures AddressRecordOf(k, owner, ip) in TransferRecords(k, zone) <==>
            exists svc :: svc in k.services && EmitsAddress(k, zone, svc, owner, ip)
  {
    var rr := AddressRecordOf(k, owner, ip);
    var step := (svc: Service) => ServiceRecords(k, zone, svc);
    if rr in FlatMap(step, k.services) {
      var svc := FlatMapSource(step, k.services, rr);
      ServiceAddressIff(k, zone, svc, owner, ip);
    }
    if svc :| svc in k.services && EmitsAddress(k, zone, svc, owner, ip) {
      ServiceAddressIff(k, zone, svc, owner, ip);
      FlatMapMember(step, k.services, svc, rr);
    }
  }

  // ---------------------------------------------------------------------------------------------
  // Address records agree with address answers.
  // ---------------------------------------------------------------------------------------------

  /** Some Endpoints object of this name holds an address. */
  ghost predicate HasAddresses(k: Kube, name: string, ns: string) {
    exists ep, sub :: ep in k.endpoints && ep.name == name && ep.namespace == ns && sub in ep.subsets &&
      sub.addresses != []
  }

  /** Services of this name are not hidden by the ignore-empty option. */
  ghost predicate Unhidden(k: Kube, name: string, ns: string) {
    k.ignoreEmptyService ==> HasAddresses(k, name, ns)
  }

  ghost predicate AnswersHost(k: Kube, owner: Name, zone: Name, ip: string)
    requires ProperName(owner)
  {
    exists a :: a in RecordsFor(k, owner, zone).answers && a.host == ip
  }

  /** A transfer lists an address under a service name exactly when the query for that name
      answers it, the only exception being services the query hides because they are empty. */
  lemma ServiceNameAgreement(k: Kube, zone: Name, name: string, ns: string, ip: string)
    requires WellFormed(k) && ForwardZone(zone) && ExactLabel(name) && ExactLabel(ns)
    requires !k.hostKind(ip).HostName?
    ensures ProperName(ServiceName(zone, name, ns))
    ensures AnswersHost(k, ServiceName(zone, name, ns), zone, ip) <==>
            AddressRecordOf(k, ServiceName(zone, name, ns), ip) in TransferRecords(k, zone) && Unhidden(k, name, ns)
  {
    var owner, r := ServiceName(zone, name, ns), ServiceRequest(name, ns);
    QueryService(k, zone, name, ns);
    TransferAddressIff(k, zone, owner, ip);
    QueryMeaning(k, r, zone);
    if AnswersHost(k, owner, zone, ip) {
      var a :| a in RecordsFor(k, owner, zone).answers && a.host == ip;
      var svc :| svc in k.services && Selected(k, r, svc) && !Hidden(k, r, svc) &&
          Offer(k, r, zone, svc, k.endpoints, a);
      SelectedKey(k, r, svc);
      ServiceOfferEmits(k, zone, svc, r, a);
    }
    if AddressRecordOf(k, owner, ip) in TransferRecords(k, zone) && Unhidden(k, name, ns) {
      var svc :| svc in k.services && EmitsAddress(k, zone, svc, owner, ip);
      var a := ServiceEmitsOffer(k, zone, svc, r, owner, ip);
      assert Proper(k, r, zone, a);
    }
  }

  lemma ServiceOfferEmits(k: Kube, zone: Name, svc: Service, r: RecordRequest, a: Answer)
    requires WellFormed(k) && svc in k.services && k.NamespaceExposed(svc.namespace)
    requires r == ServiceRequest(svc.name, svc.namespace)
    requires Offer(k, r, zone, svc, k.endpoints, a) && !Hidden(k, r, svc) && !k.hostKind(a.host).HostName?
    ensures EmitsAddress(k, zone, svc, ServiceName(zone, svc.name, svc.namespace), a.host)
    ensures Unhidden(k, svc.name, svc.namespace)
  {
    if Headless(svc) {
      var ep, sub, addr, p :|
        && ep in k.endpoints && ep.name == svc.name && ep.namespace == svc.namespace
        && sub in ep.subsets && addr in sub.addresses && p in sub.ports
        && AddressMatches(k, r, addr) && PortMatches(r, p)
        && a == EndpointAnswer(k, zone, svc, addr, p);
      assert Backs(k, svc, sub, addr) && addr.ip == a.host;
      assert sub.addresses != [];
    }
  }

  lemma ServiceEmitsOffer(k: Kube, zone: Name, svc: Service, r: RecordRequest, owner: Name,
                          ip: string) returns (a: Answer)
    requires WellFormed(k) && svc in k.services && EmitsAddress(k, zone, svc, owner, ip)
    requires owner == ServiceName(zone, r.service, r.namespace) && r == ServiceRequest(r.service, r.namespace)
    requires Unhidden(k, r.service, r.namespace) && ExactLabel(r.service) && ExactLabel(r.namespace)
    ensures svc.name == r.service && svc.namespace == r.namespace && a.host == ip
    ensures Selected(k, r, svc) && !Hidden(k, r, svc) && Offer(k, r, zone, svc, k.endpoints, a)
  {
    var base := ServiceName(zone, svc.name, svc.namespace);
    assert |base| == |owner| == 3 + |zone|;
    assert owner == base;
    assert owner[0] == svc.name && owner[1] == svc.namespace;
    if !k.hostKind(svc.clusterIP).HostName? {
      var p := svc.ports[0];
      a := ClusterAnswer(k, zone, svc, p);
      assert PortMatches(r, p);
    } else {
      var sub, addr :| Backs(k, svc, sub, addr) && addr.ip == ip &&
          (owner == base || owner == EndpointName(zone, k.Hostname(addr), svc.name, svc.namespace));
      var p := sub.ports[0];
      a := EndpointAnswer(k, zone, svc, addr, p);
      assert AddressMatches(k, r, addr) && PortMatches(r, p);
    }
  }

  /** Some headless service has this name: only those get endpoint names in a transfer. */
  ghost predicate HeadlessNamed(k: Kube, name: string, ns: string) {
    exists svc :: svc in k.services && svc.name == name && svc.namespace == ns && Headless(svc)
  }

  /** Endpoint answers depend on the service only through its name. */
  lemma EndpointOfferEmits(k: Kube, zone: Name, svc: Service, headless: Service, r: RecordRequest, a: Answer)
    requires WellFormed(k) && headless in k.services && Headless(headless) && k.NamespaceExposed(headless.namespace)
    requires svc.name == headless.name && svc.namespace == headless.namespace
    requires r == EndpointRequest(r.endpoint, svc.name, svc.namespace) && ExactLabel(r.endpoint)
    requires Offer(k, r, zone, svc, k.endpoints, a)
    ensures EmitsAddress(k, zone, headless, EndpointName(zone, r.endpoint, svc.name, svc.namespace), a.host)
  {
    var ep, sub, addr, p :|
      && ep in k.endpoints && ep.name == svc.name && ep.namespace == svc.namespace
      && sub in ep.subsets && addr in sub.addresses && p in sub.ports
      && AddressMatches(k, r, addr) && PortMatches(r, p)
      && a == EndpointAnswer(k, zone, svc, addr, p);
    assert Backs(k, headless, sub, addr) && addr.ip == a.host;
    assert k.Hostname(addr) == r.endpoint;
  }

  lemma EndpointEmitsOffer(k: Kube, zone: Name, svc: Service, r: RecordRequest, owner: Name,
                           ip: string) returns (a: Answer)
    requires WellFormed(k) && svc in k.services && EmitsAddress(k, zone, svc, owner, ip)
    requires owner == EndpointName(zone, r.endpoint, r.service, r.namespace)
    requires r == EndpointRequest(r.endpoint, r.service, r.namespace)
    requires ExactLabel(r.endpoint) && ExactLabel(r.service) && ExactLabel(r.namespace)
    ensures svc.name == r.service && svc.namespace == r.namespace && a.host == ip && Headless(svc)
    ensures Selected(k, r, svc) && !Hidden(k, r, svc) && Offer(k, r, zone, svc, k.endpoints, a)
  {
    var base := ServiceName(zone, svc.name, svc.namespace);
    assert |owner| == |base| + 1;
    var sub, addr :| Backs(k, svc, sub, addr) && addr.ip == ip &&
        (owner == base || owner == EndpointName(zone, k.Hostname(addr), svc.name, svc.namespace));
    assert owner == EndpointName(zone, k.Hostname(addr), svc.name, svc.namespace);
    assert owner[0] == k.Hostname(addr) && owner[1] == svc.name && owner[2] == svc.namespace;
    var p := sub.ports[0];
    a := EndpointAnswer(k, zone, svc, addr, p);
    assert AddressMatches(k, r, addr) && PortMatches(r, p);
  }

  lemma EndpointAnswerEmitted(k: Kube, zone: Name, r: RecordRequest, a: Answer)
    requires WellFormed(k) && r == EndpointRequest(r.endpoint, r.service, r.namespace)
    requires ExactLabel(r.endpoint) && ExactLabel(r.service) && ExactLabel(r.namespace)
    requires a in Found(k, r, zone).answers && HeadlessNamed(k, r.service, r.namespace)
    ensures var owner := EndpointName(zone, r.endpoint, r.service, r.namespace);
            exists svc :: svc in k.services && EmitsAddress(k, zone, svc, owner, a.host)
  {
    QueryMeaning(k, r, zone);
    var svc :| svc in k.services && Selected(k, r, svc) && !Hidden(k, r, svc) && Offer(k, r, zone, svc, k.endpoints, a);
    SelectedKey(k, r, svc);
    var headless :| headless in k.services && headless.name == r.service && headless.namespace == r.namespace &&
        Headless(headless);
    EndpointOfferEmits(k, zone, svc, headless, r, a);
  }

  lemma EndpointEmittedAnswer(k: Kube, zone: Name, r: RecordRequest, svc: Service, ip: string) returns (a: Answer)
    requires WellFormed(k) && r == EndpointRequest(r.endpoint, r.service, r.namespace) && svc in k.services
    requires ExactLabel(r.endpoint) && ExactLabel(r.service) && ExactLabel(r.namespace)
    requires EmitsAddress(k, zone, svc, EndpointName(zone, r.endpoint, r.service, r.namespace), ip)
    ensures k.NamespaceExposed(r.namespace) && HeadlessNamed(k, r.service, r.namespace)
    ensures a in Found(k, r, zone).answers && a.host == ip
  {
    a := EndpointEmitsOffer(k, zone, svc, r, EndpointName(zone, r.endpoint, r.service, r.namespace), ip);
    QueryMeaning(k, r, zone);
    assert Proper(k, r, zone, a);
  }

  /** A transfer lists an address under an endpoint name exactly when the query for that name
      answers it and the service is headless. */
  lemma EndpointNameAgreement(k: Kube, zone: Name, host: string, name: string, ns: string, ip: string)
    requires WellFormed(k) && ForwardZone(zone) && ExactLabel(host) && ExactLabel(name) && ExactLabel(ns)
    requires !k.hostKind(ip).HostName?
    ensures ProperName(EndpointName(zone, host, name, ns))
    ensures AddressRecordOf(k, EndpointName(zone, host, name, ns), ip) in TransferRecords(k, zone) <==>
            AnswersHost(k, EndpointName(zone, host, name, ns), zone, ip) && HeadlessNamed(k, name, ns)
  {
    var owner, r := EndpointName(zone, host, name, ns), EndpointRequest(host, name, ns);
    QueryEndpoint(k, zone, host, name, ns);
    TransferAddressIff(k, zone, owner, ip);
    if AnswersHost(k, owner, zone, ip) && HeadlessNamed(k, name, ns) {
      var a :| a in RecordsFor(k, owner, zone).answers && a.host == ip;
      EndpointAnswerEmitted(k, zone, r, a);
    }
    if AddressRecordOf(k, owner, ip) in TransferRecords(k, zone) {
      var svc :| svc in k.services && EmitsAddress(k, zone, svc, owner, ip);
      var a := EndpointEmittedAnswer(k, zone, r, svc, ip);
    }
  }

  // ---------------------------------------------------------------------------------------------
  // Aliases agree with external names.
  // ---------------------------------------------------------------------------------------------

  predicate EmitsAlias(k: Kube, zone: Name, svc: Service, owner: Name, alias: string) {
    && k.NamespaceExposed(svc.namespace) && svc.svcType.ExternalNameService?
    && svc.externalName == alias && k.hostKind(alias).HostName?
    && owner == ServiceName(zone, svc.name, svc.namespace)
  }

  lemma ServiceAliasIff(k: Kube, zone: Name, svc: Service, owner: Name, alias: string)
    requires WellFormed(k) && svc in k.services
    ensures CNAMERecord(owner, alias) in ServiceRecords(k, zone, svc) <==> EmitsAlias(k, zone, svc, owner, alias)
  {
    var rr := CNAMERecord(owner, alias);
    KeyNames(k, zone, svc, Address("", "", "", ""), Port("", "", 0));
    NoClusterAlias(k, zone, svc, rr);
    if rr in HeadlessRecords(k, zone, svc) {
      NoHeadlessAlias(k, zone, svc, rr);
    }
  }

  /** The records of a service's own address hold no alias. */
  lemma NoClusterAlias(k: Kube, zone: Name, svc: Service, rr: Record)
    requires rr.CNAMERecord?
    ensures rr !in ClusterPorts(k, zone, svc)
    ensures !k.hostKind(svc.clusterIP).HostName? ==> rr !in ClusterRecords(k, zone, svc)
  {
    if rr in ClusterPorts(k, zone, svc) {
      var p := FlatMapSource((q: Port) => ClusterPortRecords(k, zone, svc, q), svc.ports, rr);
      assert false;
    }
  }

  /** Neither do those of a headless service's endpoints. */
  lemma NoHeadlessAlias(k: Kube, zone: Name, svc: Service, rr: Record)
    requires WellFormed(k) && svc in k.services && rr.CNAMERecord?
    ensures rr !in HeadlessRecords(k, zone, svc)
  {
    if rr in HeadlessRecords(k, zone, svc) {
      var sub, addr := HeadlessSource(k, zone, svc, rr);
      var p := FlatMapSource((q: Port) => EndpointPortRecords(k, zone, svc, addr, SRVWeight(|sub.addresses|), q),
          sub.ports, rr);
      assert false;
    }
  }

  lemma TransferAliasIff(k: Kube, zone: Name, owner: Name, alias: string)
    requires WellFormed(k)
    ensures CNAMERecord(owner, alias) in TransferRecords(k, zone) <==>
            exists svc :: svc in k.services && EmitsAlias(k, zone, svc, owner, alias)
  {
    var step := (svc: Service) => ServiceRecords(k, zone, svc);
    if CNAMERecord(owner, alias) in TransferRecords(k, zone) {
      var svc := FlatMapSource(step, k.services, CNAMERecord(owner, alias));
      ServiceAliasIff(k, zone, svc, owner, alias);
    }
    if svc :| svc in k.services && EmitsAlias(k, zone, svc, owner, alias) {
      ServiceAliasIff(k, zone, svc, owner, alias);
      FlatMapMember(step, k.services, svc, CNAMERecord(owner, alias));
    }
  }

  /** Only external names are answered by name, and they are never hidden. */
  lemma NamedHostIff(k: Kube, zone: Name, svc: Service, r: RecordRequest, a: Answer)
    requires WellFormed(k) && svc in k.services && k.hostKind(a.host).HostName?
    requires r == ServiceRequest(svc.name, svc.namespace)
    ensures !Hidden(k, r, svc) && Offer(k, r, zone, svc, k.endpoints, a) <==>
            svc.svcType.ExternalNameService? && k.hostKind(svc.externalName).HostName? &&
              a == ExternalAnswer(k, zone, svc)
  {
  }

  lemma AliasAnswered(k: Kube, zone: Name, name: string, ns: string, svc: Service, alias: string) returns (a: Answer)
    requires WellFormed(k) && svc in k.services && ExactLabel(name) && ExactLabel(ns)
    requires EmitsAlias(k, zone, svc, ServiceName(zone, name, ns), alias)
    ensures k.NamespaceExposed(ns) && a in Found(k, ServiceRequest(name, ns), zone).answers && a.host == alias
  {
    var r := ServiceRequest(name, ns);
    ServiceNameFields(zone, name, ns, svc.name, svc.namespace);
    a := ExternalAnswer(k, zone, svc);
    NamedHostIff(k, zone, svc, r, a);
    QueryMeaning(k, r, zone);
    assert Selected(k, r, svc);
    assert Proper(k, r, zone, a);
  }

  lemma AliasEmitted(k: Kube, zone: Name, name: string, ns: string, a: Answer) returns (svc: Service)
    requires WellFormed(k) && ExactLabel(name) && ExactLabel(ns) && k.hostKind(a.host).HostName?
    requires a in Found(k, ServiceRequest(name, ns), zone).answers
    ensures svc in k.services && EmitsAlias(k, zone, svc, ServiceName(zone, name, ns), a.host)
  {
    var r := ServiceRequest(name, ns);
    QueryMeaning(k, r, zone);
    svc :| svc in k.services && Selected(k, r, svc) && !Hidden(k, r, svc) && Offer(k, r, zone, svc, k.endpoints, a);
    SelectedKey(k, r, svc);
    NamedHostIff(k, zone, svc, r, a);
  }

  /** A transfer lists an alias under a service name exactly when the query for that name answers
      with that name as a host. */
  lemma AliasAgreement(k: Kube, zone: Name, name: string, ns: string, alias: string)
    requires WellFormed(k) && ForwardZone(zone) && ExactLabel(name) && ExactLabel(ns) && k.hostKind(alias).HostName?
    ensures ProperName(ServiceName(zone, name, ns))
    ensures CNAMERecord(ServiceName(zone, name, ns), alias) in TransferRecords(k, zone) <==>
            AnswersHost(k, ServiceName(zone, name, ns), zone, alias)
  {
    var owner, r := ServiceName(zone, name, ns), ServiceRequest(name, ns);
    QueryService(k, zone, name, ns);
    TransferAliasIff(k, zone, owner, alias);
    if AnswersHost(k, owner, zone, alias) {
      var a :| a in RecordsFor(k, owner, zone).answers && a.host == alias;
      var svc := AliasEmitted(k, zone, name, ns, a);
    }
    if svc :| svc in k.services && EmitsAlias(k, zone, svc, owner, alias) {
      var a := AliasAnswered(k, zone, name, ns, svc, alias);
    }
  }

  /** The owner of an address record is its service's name or the name of one of its endpoints. */
  lemma EmittedOwner(k: Kube, zone: Name, svc: Service, owner: Name, ip: string) returns (host: string)
    requires WellFormed(k) && svc in k.services && EmitsAddress(k, zone, svc, owner, ip)
    ensures owner == ServiceName(zone, svc.name, svc.namespace) ||
            (ExactLabel(host) && owner == EndpointName(zone, host, svc.name, svc.namespace))
  {
    host := "";
    if k.hostKind(svc.clusterIP).HostName? {
      var base := ServiceName(zone, svc.name, svc.namespace);
      var sub, addr :| && Backs(k, svc, sub, addr) && addr.ip == ip
                       && (owner == base || owner == EndpointName(zone, k.Hostname(addr), svc.name, svc.namespace));
      host := k.Hostname(addr);
    }
  }

  /** Every address record of a transfer is answered with the same address when its owner is
      queried, unless its service is hidden as empty. */
  lemma TransferAnswered(k: Kube, zone: Name, owner: Name, ip: string)
    requires WellFormed(k) && ForwardZone(zone) && !k.hostKind(ip).HostName?
    requires AddressRecordOf(k, owner, ip) in TransferRecords(k, zone)
    ensures ProperName(owner)
    ensures !k.ignoreEmptyService ==> AnswersHost(k, owner, zone, ip)
  {
    TransferAddressIff(k, zone, owner, ip);
    var svc :| svc in k.services && EmitsAddress(k, zone, svc, owner, ip);
    var host := EmittedOwner(k, zone, svc, owner, ip);
    if owner == ServiceName(zone, svc.name, svc.namespace) {
      ServiceNameAgreement(k, zone, svc.name, svc.namespace, ip);
    } else {
      EndpointNameAgreement(k, zone, host, svc.name, svc.namespace, ip);
    }
  }
}
