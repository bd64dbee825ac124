/** SRV records for named ports: what the transfer prints, the query parses back and answers. */
module PortAgreement {
  import opened Sequences
  import opened Text
  import opened Objects
  import opened Parse
  import opened Backend
  import opened ServiceQuery
  import opened Meaning
  import opened Records
  import opened Transfer
  import opened Agreement

  function PortName(zone: Name, port: string, protocol: string, name: string, ns: string): Name {
    ["_" + port, "_" + protocol, name, ns, SVC] + zone
  }

  /** A port or protocol name an exact query can ask for; a protocol may be empty. */
  predicate ExactPort(s: string) {
    Lower(s) == s && !Wildcard(s)
  }

  predicate NamesPort(p: Port, port: string, protocol: string) {
    p.name != "" && Lower(p.name) == port && Lower(p.protocol) == protocol
  }

  lemma Underscored(s: string)
    requires Lower(s) == s
    ensures "_" + s != "" && Lower("_" + s) == "_" + s && StripUnderscore("_" + s) == s
  {
    LowerConcat("_", s);
    assert Lower("_") == "_";
    assert ("_" + s)[1..] == s;
  }

  /** The labels of a port's owner name print the request for that port and protocol. */
  lemma PortLabels(port: string, protocol: string, name: string, ns: string)
    requires ExactPort(port) && ExactPort(protocol) && ExactLabel(name) && ExactLabel(ns)
    ensures var below := ["_" + port, "_" + protocol, name, ns, SVC];
            LowerName(below) && RequestOf(below) == Parsed(PortRequest(port, protocol, name, ns))
  {
    Underscored(port);
    Underscored(protocol);
    assert Lower(SVC) == SVC;
  }

  /** The owner name reads back as the request for that port and protocol. */
  lemma QueryPort(k: Kube, zone: Name, port: string, protocol: string, name: string, ns: string)
    requires ForwardZone(zone) && ExactPort(port) && ExactPort(protocol) && ExactLabel(name) && ExactLabel(ns)
    ensures ProperName(PortName(zone, port, protocol, name, ns))
    ensures RecordsFor(k, PortName(zone, port, protocol, name, ns), zone)
            == AskedExact(k, PortRequest(port, protocol, name, ns), zone)
  {
    PortLabels(port, protocol, name, ns);
    QueryBelow(k, ["_" + port, "_" + protocol, name, ns, SVC], zone);
  }

  /** The service contributes an SRV record for this named port, pointing at target, with this
      weight: a service's own address has the full weight, endpoints share it per subset. */
  ghost predicate EmitsPort(k: Kube, zone: Name, svc: Service, port: string, protocol: string, target: Name,
                            number: nat, weight: nat) {
    && Published(k, svc)
    && if !k.hostKind(svc.clusterIP).HostName? then
         && target == ServiceName(zone, svc.name, svc.namespace) && weight == 100
         && exists p :: p in svc.ports && NamesPort(p, port, protocol) && p.port % 0x1_0000 == number
       else
         exists sub, addr, p ::
           && Backs(k, svc, sub, addr) && target == EndpointName(zone, k.Hostname(addr), svc.name, svc.namespace)
           && weight == SRVWeight(|sub.addresses|)
           && p in sub.ports && NamesPort(p, port, protocol) && p.port % 0x1_0000 == number
  }

  ghost predicate HoldsSRV(records: seq<Record>, owner: Name, target: Name, number: nat) {
    exists weight :: SRVRecord(owner, target, number, weight) in records
  }

  lemma PortOwner(k: Kube, zone: Name, svc: Service, p: Port, port: string, protocol: string)
    ensures Domain(PortKey(zone, svc, p)) == PortName(zone, port, protocol, svc.name, svc.namespace) <==>
            Lower(p.name) == port && Lower(p.protocol) == protocol
  {
    KeyNames(k, zone, svc, Address("", "", "", ""), p);
    var owner := ["_" + Lower(p.name), "_" + Lower(p.protocol)] + ServiceName(zone, svc.name, svc.namespace);
    var asked := PortName(zone, port, protocol, svc.name, svc.namespace);
    assert owner == PortName(zone, Lower(p.name), Lower(p.protocol), svc.name, svc.namespace);
    if owner == asked {
      assert owner[0] == asked[0] && owner[1] == asked[1];
      assert Lower(p.name) == owner[0][1..] == asked[0][1..] == port;
      assert Lower(p.protocol) == owner[1][1..] == asked[1][1..] == protocol;
    }
  }

  /** Names of different shapes or of different services differ. */
  lemma PortNameFields(zone: Name, port: string, protocol: string, name1: string, ns1: string, name2: string,
                       ns2: string, x: string, y: string)
    requires PortName(zone, port, protocol, name1, ns1) == PortName(zone, x, y, name2, ns2)
    ensures name1 == name2 && ns1 == ns2
  {
    var n := PortName(zone, port, protocol, name1, ns1);
    assert n[2] == name1 && n[3] == ns1;
    var m := PortName(zone, x, y, name2, ns2);
    assert m[2] == name2 && m[3] == ns2;
  }

  lemma ClusterPortIff(k: Kube, zone: Name, svc: Service, port: string, protocol: string, target: Name, number: nat,
                       weight: nat)
    requires !k.hostKind(svc.clusterIP).HostName?
    ensures SRVRecord(PortName(zone, port, protocol, svc.name, svc.namespace), target, number,
            weight) in ClusterRecords(k, zone, svc) <==>
            && target == ServiceName(zone, svc.name, svc.namespace) && weight == 100
            && exists p :: p in svc.ports && NamesPort(p, port, protocol) && p.port % 0x1_0000 == number
  {
    var owner := PortName(zone, port, protocol, svc.name, svc.namespace);
    var base := ServiceName(zone, svc.name, svc.namespace);
    KeyNames(k, zone, svc, Address("", "", "", ""), Port("", "", 0));
    assert |owner| == |base| + 2;
    var step := (p: Port) => ClusterPortRecords(k, zone, svc, p);
    if SRVRecord(owner, target, number, weight) in ClusterRecords(k, zone, svc) {
      var p := FlatMapSource(step, svc.ports, SRVRecord(owner, target, number, weight));
      PortOwner(k, zone, svc, p, port, protocol);
      assert p in svc.ports && NamesPort(p, port, protocol) && p.port % 0x1_0000 == number;
    }
    if p :| && target == base && weight == 100
            && p in svc.ports && NamesPort(p, port, protocol) && p.port % 0x1_0000 == number {
      PortOwner(k, zone, svc, p, port, protocol);
      FlatMapMember(step, svc.ports, p, SRVRecord(owner, base, number, 100));
    }
  }

  lemma EndpointPortIff(k: Kube, zone: Name, svc: Service, ports: seq<Port>, w: nat, addr: Address,
                        port: string, protocol: string, target: Name, number: nat, weight: nat)
    requires !k.hostKind(addr.ip).HostName?
    ensures SRVRecord(PortName(zone, port, protocol, svc.name, svc.namespace), target, number, weight)
            in EndpointRecords(k, zone, svc, ports, w, addr) <==>
            && target == EndpointName(zone, k.Hostname(addr), svc.name, svc.namespace) && weight == w
            && exists p :: p in ports && NamesPort(p, port, protocol) && p.port % 0x1_0000 == number
  {
    var rr := SRVRecord(PortName(zone, port, protocol, svc.name, svc.namespace), target, number, weight);
    KeyNames(k, zone, svc, addr, Port("", "", 0));
    var step := (p: Port) => EndpointPortRecords(k, zone, svc, addr, w, p);
    var records := EndpointRecords(k, zone, svc, ports, w, addr);
    if rr in records {
      var p := FlatMapSource(step, ports, rr);
      PortOwner(k, zone, svc, p, port, protocol);
      assert p in ports && NamesPort(p, port, protocol) && p.port % 0x1_0000 == number;
    }
    if p :| && target == EndpointName(zone, k.Hostname(addr), svc.name, svc.namespace) && weight == w
            && p in ports && NamesPort(p, port, protocol) && p.port % 0x1_0000 == number {
      PortOwner(k, zone, svc, p, port, protocol);
      FlatMapMember(step, ports, p, rr);
    }
  }

  lemma HeadlessPortIff(k: Kube, zone: Name, svc: Service, port: string, protocol: string, target: Name, number: nat,
                        weight: nat)
    requires WellFormed(k) && svc in k.services && Published(k, svc) && k.hostKind(svc.clusterIP).HostName?
    ensures SRVRecord(PortName(zone, port, protocol, svc.name, svc.namespace), target, number,
            weight) in HeadlessRecords(k, zone, svc) <==>
            EmitsPort(k, zone, svc, port, protocol, target, number, weight)
  {
    var rr := SRVRecord(PortName(zone, port, protocol, svc.name, svc.namespace), target, number, weight);
    if rr in HeadlessRecords(k, zone, svc) {
      var sub, addr := HeadlessSource(k, zone, svc, rr);
      EndpointPortIff(k, zone, svc, sub.ports, SRVWeight(|sub.addresses|), addr, port, protocol, target, number,
        weight);
      var p :| p in sub.ports && NamesPort(p, port, protocol) && p.port % 0x1_0000 == number;
      assert EmitsPort(k, zone, svc, port, protocol, target, number, weight);
    }
    if EmitsPort(k, zone, svc, port, protocol, target, number, weight) {
      var sub, addr, p :|
        && Backs(k, svc, sub, addr) && target == EndpointName(zone, k.Hostname(addr), svc.name, svc.namespace)
        && weight == SRVWeight(|sub.addresses|)
        && p in sub.ports && NamesPort(p, port, protocol) && p.port % 0x1_0000 == number;
      EndpointPortIff(k, zone, svc, sub.ports, weight, addr, port, protocol, target, number, weight);
      HeadlessMember(k, zone, svc, sub, addr, rr);
    }
  }

  /** Every SRV record of a service is owned by its own name or by the name of one of its ports. */
  lemma SRVOwner(k: Kube, zone: Name, svc: Service, rr: Record) returns (p: Port)
    requires WellFormed(k) && svc in k.services && rr.SRVRecord? && rr in ServiceRecords(k, zone, svc)
    ensures StoredPort(p)
    ensures || (rr.owner == ServiceName(zone, svc.name, svc.namespace) && Published(k, svc) &&
            !k.hostKind(svc.clusterIP).HostName?)
            || (p.name != "" && rr.owner == PortName(zone, Lower(p.name), Lower(p.protocol), svc.name, svc.namespace))
  {
    KeyNames(k, zone, svc, Address("", "", "", ""), Port("", "", 0));
    if !k.hostKind(svc.clusterIP).HostName? {
      p := FlatMapSource((q: Port) => ClusterPortRecords(k, zone, svc, q), svc.ports, rr);
    } else {
      var sub, addr := HeadlessSource(k, zone, svc, rr);
      p := FlatMapSource((q: Port) => EndpointPortRecords(k, zone, svc, addr, SRVWeight(|sub.addresses|), q),
        sub.ports, rr);
    }
    PortOwner(k, zone, svc, p, Lower(p.name), Lower(p.protocol));
  }

  lemma ServicePort(k: Kube, zone: Name, svc: Service, port: string, protocol: string, target: Name, number: nat,
                    weight: nat)
    requires WellFormed(k) && svc in k.services
    ensures SRVRecord(PortName(zone, port, protocol, svc.name, svc.namespace), target, number,
            weight) in ServiceRecords(k, zone, svc) <==>
            EmitsPort(k, zone, svc, port, protocol, target, number, weight)
  {
    if Published(k, svc) {
      if !k.hostKind(svc.clusterIP).HostName? {
        ClusterPortIff(k, zone, svc, port, protocol, target, number, weight);
      } else {
        HeadlessPortIff(k, zone, svc, port, protocol, target, number, weight);
      }
    }
  }

  /** Which SRV records for named ports a transfer holds, weights included. */
  lemma TransferPortIff(k: Kube, zone: Name, port: string, protocol: string, name: string, ns: string, target: Name,
                        number: nat, weight: nat)
    requires WellFormed(k)
    ensures SRVRecord(PortName(zone, port, protocol, name, ns), target, number, weight) in TransferRecords(k, zone) <==>
            exists svc :: && svc in k.services && svc.name == name && svc.namespace == ns
                          && EmitsPort(k, zone, svc, port, protocol, target, number, weight)
  {
    var rr := SRVRecord(PortName(zone, port, protocol, name, ns), target, number, weight);
    var step := (svc: Service) => ServiceRecords(k, zone, svc);
    if rr in TransferRecords(k, zone) {
      var svc := FlatMapSource(step, k.services, rr);
      var p := SRVOwner(k, zone, svc, rr);
      assert |rr.owner| == |ServiceName(zone, svc.name, svc.namespace)| + 2;
      PortNameFields(zone, port, protocol, name, ns, svc.name, svc.namespace, Lower(p.name), Lower(p.protocol));
      ServicePort(k, zone, svc, port, protocol, target, number, weight);
    }
    if svc :| && svc in k.services && svc.name == name && svc.namespace == ns
              && EmitsPort(k, zone, svc, port, protocol, target, number, weight) {
      ServicePort(k, zone, svc, port, protocol, target, number, weight);
      FlatMapMember(step, k.services, svc, rr);
    }
  }

  // ---------------------------------------------------------------------------------------------
  // Agreement
  // ---------------------------------------------------------------------------------------------

  /** The query for owner answers this port at a host named target. Answers whose host is a name
      rather than an address are dropped from SRV responses. */
  ghost predicate AnswersPort(k: Kube, owner: Name, zone: Name, target: Name, number: nat)
    requires ProperName(owner)
  {
    exists a :: && a in RecordsFor(k, owner, zone).answers && !k.hostKind(a.host).HostName?
                && a.key != [] && Domain(a.key) == target && a.port % 0x1_0000 == number
  }

  lemma PortOfferEmits(k: Kube, zone: Name, svc: Service, r: RecordRequest, a: Answer) returns (weight: nat)
    requires WellFormed(k) && svc in k.services && k.NamespaceExposed(svc.namespace)
    requires r == PortRequest(r.port, r.protocol, svc.name, svc.namespace)
    requires ExactPort(r.port) && r.port != "" && ExactPort(r.protocol)
    requires Offer(k, r, zone, svc, k.endpoints, a) && !Hidden(k, r, svc) && !k.hostKind(a.host).HostName?
    ensures a.key != [] && EmitsPort(k, zone, svc, r.port, r.protocol, Domain(a.key), a.port % 0x1_0000, weight)
    ensures Unhidden(k, svc.name, svc.namespace)
  {
    weight := 100;
    if Headless(svc) {
      var ep, sub, addr, p :|
        && ep in k.endpoints && ep.name == svc.name && ep.namespace == svc.namespace
        && sub in ep.subsets && addr in sub.addresses && p in sub.ports
        && AddressMatches(k, r, addr) && PortMatches(r, p)
        && a == EndpointAnswer(k, zone, svc, addr, p);
      KeyNames(k, zone, svc, addr, p);
      assert Backs(k, svc, sub, addr) && NamesPort(p, r.port, r.protocol);
      assert sub.addresses != [];
      weight := SRVWeight(|sub.addresses|);
    } else {
      var p :| p in svc.ports && PortMatches(r, p) && a == ClusterAnswer(k, zone, svc, p);
      KeyNames(k, zone, svc, Address("", "", "", ""), p);
      assert NamesPort(p, r.port, r.protocol);
    }
  }

  lemma PortEmitsOffer(k: Kube, zone: Name, svc: Service, r: RecordRequest, target: Name, number: nat,
                       weight: nat) returns (a: Answer)
    requires WellFormed(k) && svc in k.services && ExactLabel(svc.name) && ExactLabel(svc.namespace)
    requires r == PortRequest(r.port, r.protocol, svc.name, svc.namespace)
    requires ExactPort(r.port) && ExactPort(r.protocol) && Unhidden(k, svc.name, svc.namespace)
    requires EmitsPort(k, zone, svc, r.port, r.protocol, target, number, weight)
    ensures a.key != [] && Domain(a.key) == target && a.port % 0x1_0000 == number && !k.hostKind(a.host).HostName?
    ensures Selected(k, r, svc) && !Hidden(k, r, svc) && Offer(k, r, zone, svc, k.endpoints, a)
  {
    if !k.hostKind(svc.clusterIP).HostName? {
      var p :| p in svc.ports && NamesPort(p, r.port, r.protocol) && p.port % 0x1_0000 == number;
      a := ClusterAnswer(k, zone, svc, p);
      KeyNames(k, zone, svc, Address("", "", "", ""), p);
      assert PortMatches(r, p);
    } else {
      var sub, addr, p :|
        && Backs(k, svc, sub, addr) && target == EndpointName(zone, k.Hostname(addr), svc.name, svc.namespace)
        && weight == SRVWeight(|sub.addresses|)
        && p in sub.ports && NamesPort(p, r.port, r.protocol) && p.port % 0x1_0000 == number;
      a := EndpointAnswer(k, zone, svc, addr, p);
      KeyNames(k, zone, svc, addr, p);
      assert AddressMatches(k, r, addr) && PortMatches(r, p);
    }
  }

  lemma PortAnswerEmitted(k: Kube, zone: Name, r: RecordRequest, a: Answer) returns (svc: Service, weight: nat)
    requires WellFormed(k) && ExactLabel(r.service) && ExactLabel(r.namespace)
    requires r == PortRequest(r.port, r.protocol, r.service, r.namespace)
    requires ExactPort(r.port) && r.port != "" && ExactPort(r.protocol)
    requires a in Found(k, r, zone).answers && !k.hostKind(a.host).HostName?
    ensures svc in k.services && svc.name == r.service && svc.namespace == r.namespace && a.key != []
    ensures EmitsPort(k, zone, svc, r.port, r.protocol, Domain(a.key), a.port % 0x1_0000, weight)
    ensures Unhidden(k, r.service, r.namespace)
  {
    QueryMeaning(k, r, zone);
    svc :| svc in k.services && Selected(k, r, svc) && !Hidden(k, r, svc) && Offer(k, r, zone, svc, k.endpoints, a);
    SelectedKey(k, r, svc);
    weight := PortOfferEmits(k, zone, svc, r, a);
  }

  lemma PortEmittedAnswer(k: Kube, zone: Name, r: RecordRequest, svc: Service, target: Name, number: nat,
                          weight: nat) returns (a: Answer)
    requires WellFormed(k) && svc in k.services && ExactLabel(svc.name) && ExactLabel(svc.namespace)
    requires r == PortRequest(r.port, r.protocol, svc.name, svc.namespace)
    requires ExactPort(r.port) && ExactPort(r.protocol) && Unhidden(k, svc.name, svc.namespace)
    requires EmitsPort(k, zone, svc, r.port, r.protocol, target, number, weight)
    ensures k.NamespaceExposed(r.namespace) && a in Found(k, r, zone).answers && !k.hostKind(a.host).HostName?
    ensures a.key != [] && Domain(a.key) == target && a.port % 0x1_0000 == number
  {
    a := PortEmitsOffer(k, zone, svc, r, target, number, weight);
    QueryMeaning(k, r, zone);
    assert Proper(k, r, zone, a);
  }

  /** A transfer lists an SRV record for a named port exactly when the query for its owner answers
      that port at the same target, the only exception being services hidden as empty. */
  lemma NamedPortAgreement(k: Kube, zone: Name, port: string, protocol: string, name: string, ns: string,
                           target: Name, number: nat)
    requires WellFormed(k) && ForwardZone(zone) && ExactLabel(name) && ExactLabel(ns)
    requires ExactPort(port) && port != "" && ExactPort(protocol)
    ensures ProperName(PortName(zone, port, protocol, name, ns))
    ensures AnswersPort(k, PortName(zone, port, protocol, name, ns), zone, target, number) <==>
            && HoldsSRV(TransferRecords(k, zone), PortName(zone, port, protocol, name, ns), target, number)
            && Unhidden(k, name, ns)
  {
    var owner, r := PortName(zone, port, protocol, name, ns), PortRequest(port, protocol, name, ns);
    QueryPort(k, zone, port, protocol, name, ns);
    if AnswersPort(k, owner, zone, target, number) {
      var a :| && a in RecordsFor(k, owner, zone).answers && !k.hostKind(a.host).HostName?
               && a.key != [] && Domain(a.key) == target && a.port % 0x1_0000 == number;
      var svc, weight := PortAnswerEmitted(k, zone, r, a);
      TransferPortIff(k, zone, port, protocol, name, ns, target, number, weight);
      assert SRVRecord(owner, target, number, weight) in TransferRecords(k, zone);
    }
    if HoldsSRV(TransferRecords(k, zone), owner, target, number) && Unhidden(k, name, ns) {
      var weight :| SRVRecord(owner, target, number, weight) in TransferRecords(k, zone);
      TransferPortIff(k, zone, port, protocol, name, ns, target, number, weight);
      var svc :| && svc in k.services && svc.name == name && svc.namespace == ns
                 && EmitsPort(k, zone, svc, port, protocol, target, number, weight);
      var a := PortEmittedAnswer(k, zone, r, svc, target, number, weight);
    }
  }

  // ---------------------------------------------------------------------------------------------
  // SRV records under the service's own name.
  // ---------------------------------------------------------------------------------------------

  /** The service contributes an SRV record under its own name: it has an address of its own. */
  ghost predicate EmitsOwnPort(k: Kube, zone: Name, svc: Service, owner: Name, target: Name, number: nat, weight: nat) {
    && Published(k, svc) && !k.hostKind(svc.clusterIP).HostName?
    && owner == target == ServiceName(zone, svc.name, svc.namespace) && weight == 100
    && exists p :: p in svc.ports && p.port % 0x1_0000 == number
  }

  lemma OwnPortIff(k: Kube, zone: Name, svc: Service, owner: Name, target: Name, number: nat, weight: nat)
    requires WellFormed(k) && svc in k.services && |owner| == 3 + |zone|
    ensures SRVRecord(owner, target, number, weight) in ServiceRecords(k, zone, svc) <==>
            EmitsOwnPort(k, zone, svc, owner, target, number, weight)
  {
    var rr, base := SRVRecord(owner, target, number, weight), ServiceName(zone, svc.name, svc.namespace);
    KeyNames(k, zone, svc, Address("", "", "", ""), Port("", "", 0));
    var step := (p: Port) => ClusterPortRecords(k, zone, svc, p);
    if rr in ServiceRecords(k, zone, svc) {
      var q := SRVOwner(k, zone, svc, rr);
      assert |PortName(zone, Lower(q.name), Lower(q.protocol), svc.name, svc.namespace)| == 5 + |zone|;
      var p := FlatMapSource(step, svc.ports, rr);
      PortOwner(k, zone, svc, p, Lower(p.name), Lower(p.protocol));
      assert p in svc.ports && p.port % 0x1_0000 == number;
    }
    if EmitsOwnPort(k, zone, svc, owner, target, number, weight) {
      var p :| p in svc.ports && p.port % 0x1_0000 == number;
      FlatMapMember(step, svc.ports, p, rr);
    }
  }

  lemma TransferOwnPortIff(k: Kube, zone: Name, owner: Name, target: Name, number: nat, weight: nat)
    requires WellFormed(k) && |owner| == 3 + |zone|
    ensures SRVRecord(owner, target, number, weight) in TransferRecords(k, zone) <==>
            exists svc :: svc in k.services && EmitsOwnPort(k, zone, svc, owner, target, number, weight)
  {
    var rr := SRVRecord(owner, target, number, weight);
    var step := (svc: Service) => ServiceRecords(k, zone, svc);
    if rr in TransferRecords(k, zone) {
      var svc := FlatMapSource(step, k.services, rr);
      OwnPortIff(k, zone, svc, owner, target, number, weight);
    }
    if svc :| svc in k.services && EmitsOwnPort(k, zone, svc, owner, target, number, weight) {
      OwnPortIff(k, zone, svc, owner, target, number, weight);
      FlatMapMember(step, k.services, svc, rr);
    }
  }

  /** An answer to the service's own name that points back at that name is a port of its address. */
  lemma OwnAnswerEmitted(k: Kube, zone: Name, name: string, ns: string, a: Answer) returns (svc: Service)
    requires WellFormed(k) && ExactLabel(name) && ExactLabel(ns)
    requires a in Found(k, ServiceRequest(name, ns), zone).answers && !k.hostKind(a.host).HostName?
    requires a.key != [] && Domain(a.key) == ServiceName(zone, name, ns)
    ensures svc in k.services && Unhidden(k, name, ns)
    ensures EmitsOwnPort(k, zone, svc, ServiceName(zone, name, ns), Domain(a.key), a.port % 0x1_0000, 100)
  {
    var r := ServiceRequest(name, ns);
    QueryMeaning(k, r, zone);
    svc :| svc in k.services && Selected(k, r, svc) && !Hidden(k, r, svc) && Offer(k, r, zone, svc, k.endpoints, a);
    SelectedKey(k, r, svc);
    assert |a.key| == |Domain(a.key)| + 1 == |ServiceKey(zone, svc)|;
    assert !Headless(svc);
    var p :| p in svc.ports && PortMatches(r, p) && a == ClusterAnswer(k, zone, svc, p);
    assert p in svc.ports && p.port % 0x1_0000 == a.port % 0x1_0000;
  }

  lemma OwnEmittedAnswer(k: Kube, zone: Name, name: string, ns: string, svc: Service, target: Name, number: nat,
                         weight: nat) returns (a: Answer)
    requires WellFormed(k) && svc in k.services && ExactLabel(name) && ExactLabel(ns) && Unhidden(k, name, ns)
    requires EmitsOwnPort(k, zone, svc, ServiceName(zone, name, ns), target, number, weight)
    ensures k.NamespaceExposed(ns) && a in Found(k, ServiceRequest(name, ns), zone).answers &&
            !k.hostKind(a.host).HostName?
    ensures a.key != [] && Domain(a.key) == target && a.port % 0x1_0000 == number
  {
    var r := ServiceRequest(name, ns);
    ServiceNameFields(zone, name, ns, svc.name, svc.namespace);
    var p :| p in svc.ports && p.port % 0x1_0000 == number;
    ServiceKeyNames(zone, svc);
    a := ClusterAnswer(k, zone, svc, p);
    QueryMeaning(k, r, zone);
    assert PortMatches(r, p) && Selected(k, r, svc);
    assert Proper(k, r, zone, a);
  }

  /** Under a service's own name, a transfer lists SRV records exactly for the ports the query for
      that name answers at that name, except for services hidden as empty. */
  lemma OwnPortAgreement(k: Kube, zone: Name, name: string, ns: string, number: nat)
    requires WellFormed(k) && ForwardZone(zone) && ExactLabel(name) && ExactLabel(ns)
    ensures ProperName(ServiceName(zone, name, ns))
    ensures AnswersPort(k, ServiceName(zone, name, ns), zone, ServiceName(zone, name, ns), number) <==>
            && HoldsSRV(TransferRecords(k, zone), ServiceName(zone, name, ns), ServiceName(zone, name, ns), number)
            && Unhidden(k, name, ns)
  {
    var owner := ServiceName(zone, name, ns);
    QueryService(k, zone, name, ns);
    if AnswersPort(k, owner, zone, owner, number) {
      var a :| && a in RecordsFor(k, owner, zone).answers && !k.hostKind(a.host).HostName?
               && a.key != [] && Domain(a.key) == owner && a.port % 0x1_0000 == number;
      var svc := OwnAnswerEmitted(k, zone, name, ns, a);
      TransferOwnPortIff(k, zone, owner, owner, number, 100);
      assert SRVRecord(owner, owner, number, 100) in TransferRecords(k, zone);
    }
    if HoldsSRV(TransferRecords(k, zone), owner, owner, number) && Unhidden(k, name, ns) {
      var weight :| SRVRecord(owner, owner, number, weight) in TransferRecords(k, zone);
      TransferOwnPortIff(k, zone, owner, owner, number, weight);
      var svc :| svc in k.services && EmitsOwnPort(k, zone, svc, owner, owner, number, weight);
      var a := OwnEmittedAnswer(k, zone, name, ns, svc, owner, number, weight);
    }
  }

  // ---------------------------------------------------------------------------------------------
  // The whole transfer
  // ---------------------------------------------------------------------------------------------

  /** The query for the record's owner answers what the record says. */
  ghost predicate Answered(k: Kube, zone: Name, rr: Record) {
    && ProperName(rr.owner)
    && match rr
       case ARecord(owner, ip) => k.hostKind(ip).HostA? && AnswersHost(k, owner, zone, ip)
       case AAAARecord(owner, ip) => k.hostKind(ip).HostAAAA? && AnswersHost(k, owner, zone, ip)
       case CNAMERecord(owner, alias) => k.hostKind(alias).HostName? && AnswersHost(k, owner, zone, alias)
       case SRVRecord(owner, target, number, _) => AnswersPort(k, owner, zone, target, number)
  }

  /** Address records are of the kind of their address. */
  lemma AddressKind(k: Kube, zone: Name, svc: Service, rr: Record)
    requires WellFormed(k) && svc in k.services && rr in ServiceRecords(k, zone, svc) && (rr.ARecord? || rr.AAAARecord?)
    ensures !k.hostKind(rr.ip).HostName? && rr == AddressRecordOf(k, rr.owner, rr.ip)
  {
    if !k.hostKind(svc.clusterIP).HostName? {
      var step := (p: Port) => ClusterPortRecords(k, zone, svc, p);
      if rr in FlatMap(step, svc.ports) {
        var p := FlatMapSource(step, svc.ports, rr);
        assert false;
      }
    } else {
      var sub, addr := HeadlessSource(k, zone, svc, rr);
      var step := (p: Port) => EndpointPortRecords(k, zone, svc, addr, SRVWeight(|sub.addresses|), p);
      if rr in FlatMap(step, sub.ports) {
        var p := FlatMapSource(step, sub.ports, rr);
        assert false;
      }
    }
  }

  lemma SRVAnswered(k: Kube, zone: Name, svc: Service, rr: Record)
    requires WellFormed(k) && ForwardZone(zone) && !k.ignoreEmptyService
    requires rr in TransferRecords(k, zone) && rr.SRVRecord? && svc in k.services && rr in ServiceRecords(k, zone, svc)
    ensures Answered(k, zone, rr)
  {
    var p := SRVOwner(k, zone, svc, rr);
    var base := ServiceName(zone, svc.name, svc.namespace);
    if rr.owner == base {
      OwnPortIff(k, zone, svc, rr.owner, rr.target, rr.port, rr.weight);
      OwnPortAgreement(k, zone, svc.name, svc.namespace, rr.port);
      assert HoldsSRV(TransferRecords(k, zone), base, base, rr.port);
    } else {
      LowerIdempotent(p.name);
      LowerIdempotent(p.protocol);
      NamedPortAgreement(k, zone, Lower(p.name), Lower(p.protocol), svc.name, svc.namespace, rr.target, rr.port);
      assert HoldsSRV(TransferRecords(k, zone), rr.owner, rr.target, rr.port);
    }
  }

  /** Every record of a transfer is answered by the query for its owner, with ignore-empty off. */
  lemma EveryRecordAnswered(k: Kube, zone: Name, rr: Record)
    requires WellFormed(k) && ForwardZone(zone) && !k.ignoreEmptyService && rr in TransferRecords(k, zone)
    ensures Answered(k, zone, rr)
  {
    var svc := FlatMapSource((s: Service) => ServiceRecords(k, zone, s), k.services, rr);
    match rr {
      case SRVRecord(_, _, _, _) => SRVAnswered(k, zone, svc, rr);
      case CNAMERecord(owner, alias) =>
        ServiceAliasIff(k, zone, svc, owner, alias);
        AliasAgreement(k, zone, svc.name, svc.namespace, alias);
      case _ =>
        AddressKind(k, zone, svc, rr);
        TransferAnswered(k, zone, rr.owner, rr.ip);
    }
  }
}
