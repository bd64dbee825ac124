/** The records of a zone transfer, told from the cached objects and the configuration alone. */
module ReferenceZone {
  import opened Sequences
  import opened Text
  import opened Objects
  import opened Parse
  import opened Backend
  import opened Reference
  import opened Transfer
  import Agreement
  import Meaning

  /** The address record of the host's kind. */
  predicate AddressRecord(k: Kube, rr: Record, owner: Name, host: string) {
    || (k.hostKind(host) == HostA && rr == ARecord(owner, host))
    || (k.hostKind(host) == HostAAAA && rr == AAAARecord(owner, host))
  }

  /** The SRV record of a port, under its own name. */
  predicate NamedPortRecord(rr: Record, base: Name, target: Name, p: Port, weight: nat) {
    && p.name != ""
    && rr == SRVRecord(["_" + Lower(p.name), "_" + Lower(p.protocol)] + base, target, p.port % 65536, weight)
  }

  /** A service with an address of its own has that address, and two SRV records a port, or one when
      the port has no name. */
  ghost predicate ClusterRecord(k: Kube, base: Name, svc: Service, rr: Record) {
    || AddressRecord(k, rr, base, svc.clusterIP)
    || exists p :: && p in svc.ports
                   && (rr == SRVRecord(base, base, p.port % 65536, 100) || NamedPortRecord(rr, base, base, p, 100))
  }

  /** The largest whole share n targets can have of a hundred, but at least one. */
  predicate Share(n: nat, weight: nat) {
    if n > 100 then weight == 1 else n * weight <= 100 < n * (weight + 1)
  }

  /** A headless service has the addresses of its endpoints, each under the service's name and under
      the endpoint's, and an SRV record for each named port at each of them. */
  ghost predicate EndpointRecord(k: Kube, base: Name, svc: Service, rr: Record) {
    exists ep, sub, addr ::
      Holds(k, svc, ep, sub, addr) && RecordOfEndpoint(k, base, sub, addr, rr)
  }

  ghost predicate RecordOfEndpoint(k: Kube, base: Name, sub: Subset, addr: Address, rr: Record) {
    exists published, weight ::
      && PublishedAs(k.endpointNameMode, addr, published) && Share(|sub.addresses|, weight)
      && (|| AddressRecord(k, rr, base, addr.ip) || AddressRecord(k, rr, [published] + base, addr.ip)
          || exists p :: p in sub.ports && NamedPortRecord(rr, base, [published] + base, p, weight))
  }

  ghost predicate ServiceRecord(k: Kube, zone: Name, svc: Service, rr: Record) {
    var base := [svc.name, svc.namespace, "svc"] + zone;
    if svc.svcType == ExternalNameService then
      k.hostKind(svc.externalName) == HostName && rr == CNAMERecord(base, svc.externalName)
    else if svc.clusterIP != "None" then ClusterRecord(k, base, svc, rr)
    else EndpointRecord(k, base, svc, rr)
  }

  /** The records of the zone. */
  ghost predicate ZoneRecord(k: Kube, zone: Name, rr: Record) {
    exists svc :: svc in k.services && Allowed(k, svc.namespace) && ServiceRecord(k, zone, svc, rr)
  }

  // ---------------------------------------------------------------------------------------------
  // The transfer agrees with the account.
  // ---------------------------------------------------------------------------------------------

  lemma AddressRecordIff(k: Kube, key: seq<string>, host: string, rr: Record)
    requires key != []
    ensures rr in AddressRecords(k, key, host) <==> AddressRecord(k, rr, Domain(key), host)
  {
  }

  lemma ClusterPortRecordIff(k: Kube, zone: Name, svc: Service, p: Port, rr: Record)
    requires !k.hostKind(svc.clusterIP).HostName?
    ensures var base := [svc.name, svc.namespace, "svc"] + zone;
            rr in ClusterPortRecords(k, zone, svc, p) <==>
            rr == SRVRecord(base, base, p.port % 65536, 100) || NamedPortRecord(rr, base, base, p, 100)
  {
    Agreement.KeyNames(k, zone, svc, Address("", "", "", ""), p);
  }

  lemma ClusterRecordIff(k: Kube, zone: Name, svc: Service, rr: Record)
    requires !k.hostKind(svc.clusterIP).HostName?
    ensures rr in ClusterRecords(k, zone, svc) <==>
            ClusterRecord(k, [svc.name, svc.namespace, "svc"] + zone, svc, rr)
  {
    var base := [svc.name, svc.namespace, "svc"] + zone;
    var step := (p: Port) => ClusterPortRecords(k, zone, svc, p);
    Agreement.ServiceKeyNames(zone, svc);
    AddressRecordIff(k, BaseKey(zone, svc), svc.clusterIP, rr);
    if rr in FlatMap(step, svc.ports) {
      var p := FlatMapSource(step, svc.ports, rr);
      ClusterPortRecordIff(k, zone, svc, p, rr);
    }
    if p :| && p in svc.ports
            && (rr == SRVRecord(base, base, p.port % 65536, 100) || NamedPortRecord(rr, base, base, p, 100)) {
      ClusterPortRecordIff(k, zone, svc, p, rr);
      FlatMapMember(step, svc.ports, p, rr);
    }
  }

  lemma ShareIff(n: nat, weight: nat)
    requires n >= 1
    ensures Share(n, weight) <==> weight == SRVWeight(n)
  {
    if n <= 100 {
      QuotientIs(n, 100 / n);
      assert 100 < n * (100 / n + 1) by {
        assert n * (100 / n + 1) == n * (100 / n) + n;
      }
      if weight < 100 / n {
        MulMonotone(n, weight + 1, 100 / n);
      } else if weight > 100 / n {
        MulMonotone(n, 100 / n + 1, weight);
      }
    }
  }

  lemma EndpointPortRecordIff(k: Kube, zone: Name, svc: Service, addr: Address, weight: nat, p: Port, rr: Record)
    requires !k.hostKind(addr.ip).HostName?
    ensures var base := [svc.name, svc.namespace, "svc"] + zone;
            rr in EndpointPortRecords(k, zone, svc, addr, weight, p) <==>
            NamedPortRecord(rr, base, [k.Hostname(addr)] + base, p, weight)
  {
    Agreement.KeyNames(k, zone, svc, addr, p);
    assert [k.Hostname(addr)] + ([svc.name, svc.namespace, "svc"] + zone)
        == [k.Hostname(addr), svc.name, svc.namespace, "svc"] + zone;
  }

  lemma EndpointPartIff(k: Kube, zone: Name, svc: Service, ports: seq<Port>, weight: nat, addr: Address, rr: Record)
    requires !k.hostKind(addr.ip).HostName?
    ensures var base := [svc.name, svc.namespace, "svc"] + zone;
            rr in EndpointRecords(k, zone, svc, ports, weight, addr) <==>
            || AddressRecord(k, rr, base, addr.ip) || AddressRecord(k, rr, [k.Hostname(addr)] + base, addr.ip)
            || exists p :: p in ports && NamedPortRecord(rr, base, [k.Hostname(addr)] + base, p, weight)
  {
    var base := [svc.name, svc.namespace, "svc"] + zone;
    var step := (p: Port) => EndpointPortRecords(k, zone, svc, addr, weight, p);
    Agreement.KeyNames(k, zone, svc, addr, Port("", "", 0));
    assert [k.Hostname(addr)] + base == [k.Hostname(addr), svc.name, svc.namespace, "svc"] + zone;
    AddressRecordIff(k, BaseKey(zone, svc), addr.ip, rr);
    AddressRecordIff(k, EndpointKey(k, zone, svc, addr), addr.ip, rr);
    if rr in FlatMap(step, ports) {
      var p := FlatMapSource(step, ports, rr);
      EndpointPortRecordIff(k, zone, svc, addr, weight, p, rr);
    }
    if p :| p in ports && NamedPortRecord(rr, base, [k.Hostname(addr)] + base, p, weight) {
      EndpointPortRecordIff(k, zone, svc, addr, weight, p, rr);
      FlatMapMember(step, ports, p, rr);
    }
  }

  lemma RecordOfEndpointIff(k: Kube, zone: Name, svc: Service, sub: Subset, addr: Address, rr: Record)
    requires !k.hostKind(addr.ip).HostName? && addr in sub.addresses
    ensures RecordOfEndpoint(k, [svc.name, svc.namespace, "svc"] + zone, sub, addr, rr) <==>
            rr in EndpointRecords(k, zone, svc, sub.ports, SRVWeight(|sub.addresses|), addr)
  {
    var base, weight := [svc.name, svc.namespace, "svc"] + zone, SRVWeight(|sub.addresses|);
    EndpointPartIff(k, zone, svc, sub.ports, weight, addr, rr);
    LabelIff(k.endpointNameMode, addr, k.Hostname(addr));
    ShareIff(|sub.addresses|, weight);
    if published, w :|
      && PublishedAs(k.endpointNameMode, addr, published) && Share(|sub.addresses|, w)
      && (|| AddressRecord(k, rr, base, addr.ip) || AddressRecord(k, rr, [published] + base, addr.ip)
          || exists p :: p in sub.ports && NamedPortRecord(rr, base, [published] + base, p, w)) {
      LabelIff(k.endpointNameMode, addr, published);
      ShareIff(|sub.addresses|, w);
    }
  }

  lemma EndpointRecordIff(k: Kube, zone: Name, svc: Service, rr: Record)
    requires WellFormed(k) && svc in k.services
    ensures rr in HeadlessRecords(k, zone, svc) <==>
            EndpointRecord(k, [svc.name, svc.namespace, "svc"] + zone, svc, rr)
  {
    if rr in HeadlessRecords(k, zone, svc) {
      var sub, addr := Agreement.HeadlessSource(k, zone, svc, rr);
      var ep :| && ep in k.endpoints && ep.name == svc.name && ep.namespace == svc.namespace
                && sub in ep.subsets && addr in sub.addresses;
      assert WellFormedEndpoints(k, ep) && Holds(k, svc, ep, sub, addr);
      RecordOfEndpointIff(k, zone, svc, sub, addr, rr);
    }
    if ep, sub, addr :| && Holds(k, svc, ep, sub, addr)
                        && RecordOfEndpoint(k, [svc.name, svc.namespace, "svc"] + zone, sub, addr, rr) {
      assert WellFormedEndpoints(k, ep);
      RecordOfEndpointIff(k, zone, svc, sub, addr, rr);
      Agreement.HeadlessMember(k, zone, svc, sub, addr, rr);
    }
  }

  lemma ServiceRecordIff(k: Kube, zone: Name, svc: Service, rr: Record)
    requires WellFormed(k) && svc in k.services
    ensures rr in ServiceRecords(k, zone, svc) <==> Allowed(k, svc.namespace) && ServiceRecord(k, zone, svc, rr)
  {
    assert WellFormedService(k, svc);
    Agreement.ServiceKeyNames(zone, svc);
    if !svc.svcType.ExternalNameService? {
      EndpointRecordIff(k, zone, svc, rr);
      if !k.hostKind(svc.clusterIP).HostName? {
        ClusterRecordIff(k, zone, svc, rr);
      }
    }
  }

  /** A transfer holds exactly the records of the account: of every service in an allowed namespace, and
      no others, each port with its own number. */
  lemma TransferAccount(k: Kube, zone: Name, rr: Record)
    requires WellFormed(k)
    ensures rr in TransferRecords(k, zone) <==> ZoneRecord(k, zone, rr)
  {
    var step := (svc: Service) => ServiceRecords(k, zone, svc);
    if rr in TransferRecords(k, zone) {
      var svc := FlatMapSource(step, k.services, rr);
      ServiceRecordIff(k, zone, svc, rr);
    }
    if svc :| svc in k.services && Allowed(k, svc.namespace) && ServiceRecord(k, zone, svc, rr) {
      ServiceRecordIff(k, zone, svc, rr);
      FlatMapMember(step, k.services, svc, rr);
    }
  }

  // ---------------------------------------------------------------------------------------------
  // How many records: none is sent twice.
  // ---------------------------------------------------------------------------------------------

  function Total<A>(count: A -> nat, s: seq<A>): nat {
    if s == [] then 0 else count(s[0]) + Total(count, s[1..])
  }

  lemma {:induction false} FlatMapTotal<A, B>(f: A -> seq<B>, count: A -> nat, s: seq<A>)
    requires forall i :: 0 <= i < |s| ==> |f(s[i])| == count(s[i])
    ensures |FlatMap(f, s)| == Total(count, s)
  {
    if s != [] {
      FlatMapTotal(f, count, s[1..]);
    }
  }

  lemma {:induction false} TotalConstant<A>(count: A -> nat, s: seq<A>, c: nat)
    requires forall i :: 0 <= i < |s| ==> count(s[i]) == c
    ensures Total(count, s) == |s| * c
  {
    if s != [] {
      TotalConstant(count, s[1..], c);
      assert |s| * c == c + |s[1..]| * c;
    }
  }

  function NamedPorts(ports: seq<Port>): nat {
    Total((p: Port) => if p.name == "" then 0 else 1, ports)
  }

  function SubsetCount(sub: Subset): nat {
    |sub.addresses| * (2 + NamedPorts(sub.ports))
  }

  function OwnCount(svc: Service, ep: Endpoints): nat {
    if ep.name == svc.name && ep.namespace == svc.namespace then Total(SubsetCount, ep.subsets) else 0
  }

  /** One record for an external name. One for a ClusterIP, with one or two for each port. For each
      endpoint of a headless service two, and one for each named port. */
  function RecordCount(k: Kube, svc: Service): nat {
    if !Allowed(k, svc.namespace) then 0
    else if svc.svcType == ExternalNameService then if k.hostKind(svc.externalName) == HostName then 1 else 0
    else if svc.clusterIP != "None" then 1 + |svc.ports| + NamedPorts(svc.ports)
    else Total((ep: Endpoints) => OwnCount(svc, ep), k.endpoints)
  }

  lemma {:induction false} TotalPlus<A>(count: A -> nat, more: A -> nat, s: seq<A>)
    requires forall i :: 0 <= i < |s| ==> more(s[i]) == 1 + count(s[i])
    ensures Total(more, s) == |s| + Total(count, s)
  {
    if s != [] {
      TotalPlus(count, more, s[1..]);
    }
  }

  lemma ClusterCount(k: Kube, zone: Name, svc: Service)
    requires !k.hostKind(svc.clusterIP).HostName?
    ensures |ClusterRecords(k, zone, svc)| == 1 + |svc.ports| + NamedPorts(svc.ports)
  {
    var named, both := (p: Port) => if p.name == "" then 0 else 1, (p: Port) => if p.name == "" then 1 else 2;
    FlatMapTotal((p: Port) => ClusterPortRecords(k, zone, svc, p), both, svc.ports);
    TotalPlus(named, both, svc.ports);
  }

  lemma EndpointCount(k: Kube, zone: Name, svc: Service, ports: seq<Port>, weight: nat, addr: Address)
    requires !k.hostKind(addr.ip).HostName?
    ensures |EndpointRecords(k, zone, svc, ports, weight, addr)| == 2 + NamedPorts(ports)
  {
    FlatMapTotal((p: Port) => EndpointPortRecords(k, zone, svc, addr, weight, p),
                 (p: Port) => if p.name == "" then 0 else 1, ports);
  }

  lemma SubsetCountIs(k: Kube, zone: Name, svc: Service, sub: Subset)
    requires forall a :: a in sub.addresses ==> !k.hostKind(a.ip).HostName?
    ensures |SubsetRecords(k, zone, svc, sub)| == SubsetCount(sub)
  {
    if sub.addresses != [] {
      var weight, c := SRVWeight(|sub.addresses|), 2 + NamedPorts(sub.ports);
      forall i | 0 <= i < |sub.addresses|
        ensures |EndpointRecords(k, zone, svc, sub.ports, weight, sub.addresses[i])| == c
      {
        EndpointCount(k, zone, svc, sub.ports, weight, sub.addresses[i]);
      }
      FlatMapTotal((a: Address) => EndpointRecords(k, zone, svc, sub.ports, weight, a), (a: Address) => c,
                   sub.addresses);
      TotalConstant((a: Address) => c, sub.addresses, c);
    }
  }

  lemma OwnCountIs(k: Kube, zone: Name, svc: Service, ep: Endpoints)
    requires WellFormedEndpoints(k, ep)
    ensures |EndpointsRecords(k, zone, svc, ep)| == OwnCount(svc, ep)
  {
    forall i | 0 <= i < |ep.subsets|
      ensures |SubsetRecords(k, zone, svc, ep.subsets[i])| == SubsetCount(ep.subsets[i])
    {
      assert ep.subsets[i] in ep.subsets;
      SubsetCountIs(k, zone, svc, ep.subsets[i]);
    }
    FlatMapTotal((s: Subset) => SubsetRecords(k, zone, svc, s), SubsetCount, ep.subsets);
  }

  lemma HeadlessCount(k: Kube, zone: Name, svc: Service)
    requires WellFormed(k) && svc in k.services
    ensures |HeadlessRecords(k, zone, svc)| == Total((ep: Endpoints) => OwnCount(svc, ep), k.endpoints)
  {
    var step := (ep: Endpoints) => EndpointsRecords(k, zone, svc, ep);
    Meaning.IndexedEndpoints(k, svc);
    FlatMapFilter(step, (e: Endpoints) => e.index == svc.index, k.endpoints);
    forall i | 0 <= i < |k.endpoints|
      ensures |step(k.endpoints[i])| == OwnCount(svc, k.endpoints[i])
    {
      assert k.endpoints[i] in k.endpoints;
      OwnCountIs(k, zone, svc, k.endpoints[i]);
    }
    FlatMapTotal(step, (ep: Endpoints) => OwnCount(svc, ep), k.endpoints);
  }

  lemma ServiceCount(k: Kube, zone: Name, svc: Service)
    requires WellFormed(k) && svc in k.services
    ensures |ServiceRecords(k, zone, svc)| == RecordCount(k, svc)
  {
    assert WellFormedService(k, svc);
    if !svc.svcType.ExternalNameService? {
      HeadlessCount(k, zone, svc);
      if !k.hostKind(svc.clusterIP).HostName? {
        ClusterCount(k, zone, svc);
      }
    }
  }

  /** A transfer sends as many records as the services account for. */
  lemma TransferCount(k: Kube, zone: Name)
    requires WellFormed(k)
    ensures |TransferRecords(k, zone)| == Total((svc: Service) => RecordCount(k, svc), k.services)
  {
    forall i | 0 <= i < |k.services|
      ensures |ServiceRecords(k, zone, k.services[i])| == RecordCount(k, k.services[i])
    {
      ServiceCount(k, zone, k.services[i]);
    }
    FlatMapTotal((svc: Service) => ServiceRecords(k, zone, svc), (svc: Service) => RecordCount(k, svc), k.services);
  }
}
