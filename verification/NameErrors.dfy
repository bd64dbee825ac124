/** Nothing exists beneath a name that does not exist (RFC 8020, section 2), and where that fails. */
module NameErrors {
  import opened Sequences
  import opened Text
  import HostLabel
  import opened Objects
  import opened Parse
  import opened Backend
  import opened ServiceQuery
  import opened Meaning
  import opened Records
  import opened Agreement

  /** A narrower request for the same service: one endpoint, or some ports. */
  predicate Narrows(r: RecordRequest, wide: RecordRequest) {
    && r.service == wide.service && r.namespace == wide.namespace
    && wide.endpoint == "" && (r.endpoint != "" ==> wide.port == "*" && wide.protocol == "*")
    && (wide.port == "*" || wide.port == r.port) && (wide.protocol == "*" || wide.protocol == r.protocol)
  }

  /** When some answer narrows the request, the wider request has an answer too. */
  lemma WiderAnswer(k: Kube, r: RecordRequest, wide: RecordRequest, zone: Name, a: Answer)
    requires WellFormed(k) && LowerRequest(r) && Narrows(r, wide) && a in Found(k, r, zone).answers
    ensures Found(k, wide, zone).answers != []
  {
    QueryMeaning(k, r, zone);
    QueryMeaning(k, wide, zone);
    var svc :| svc in k.services && Selected(k, r, svc) && !Hidden(k, r, svc) && Offer(k, r, zone, svc, k.endpoints, a);
    assert Selected(k, wide, svc) && !Hidden(k, wide, svc);
    var b := WiderOffer(k, r, wide, zone, svc, a);
    assert Proper(k, wide, zone, b);
  }

  lemma WiderOffer(k: Kube, r: RecordRequest, wide: RecordRequest, zone: Name, svc: Service,
                   a: Answer) returns (b: Answer)
    requires WellFormed(k) && svc in k.services && Narrows(r, wide) && Offer(k, r, zone, svc, k.endpoints, a)
    ensures Offer(k, wide, zone, svc, k.endpoints, b)
  {
    b := a;
    if Headless(svc) || r.endpoint != "" {
      var ep, sub, addr, p :|
        && ep in k.endpoints && ep.name == svc.name && ep.namespace == svc.namespace
        && sub in ep.subsets && addr in sub.addresses && p in sub.ports
        && AddressMatches(k, r, addr) && PortMatches(r, p)
        && a == EndpointAnswer(k, zone, svc, addr, p);
      assert !svc.svcType.ExternalNameService?;
      if Headless(svc) {
        assert AddressMatches(k, wide, addr) && PortMatches(wide, p);
      } else {
        var q := svc.ports[0];
        b := ClusterAnswer(k, zone, svc, q);
        assert PortMatches(wide, q);
      }
    } else if !svc.svcType.ExternalNameService? {
      var p :| p in svc.ports && PortMatches(r, p) && a == ClusterAnswer(k, zone, svc, p);
      assert PortMatches(wide, p);
    }
  }

  /** The error of a query for a lower-case name, by the labels below the zone. */
  function ErrorOf(k: Kube, below: Name, zone: Name): Error
    requires ProperName(below + zone)
  {
    RecordsFor(k, below + zone, zone).err
  }

  predicate Missing(k: Kube, below: Name, zone: Name) {
    ProperName(below + zone) && IsNameError(ErrorOf(k, below, zone))
  }

  lemma ParsedBelow(k: Kube, below: Name, zone: Name)
    requires LowerName(below) && ProperName(zone) && below != []
    ensures ProperName(below + zone)
    ensures RecordsFor(k, below + zone, zone) ==
            match RequestOf(below)
            case InvalidRequest => Lookup([], InvalidName)
            case Parsed(r) => Resolved(k, r, LowerAll(below + zone), zone)
  {
    TrimBelow(below, zone);
  }

  /** The reverse trees are closed downwards. */
  lemma ReverseBeneath(x: Name, name: Name)
    requires IsReverse(name)
    ensures IsReverse(x + name)
  {
  }

  lemma LowerBeneath(x: Name, below: Name, zone: Name)
    ensures LowerAll((x + below) + zone) == LowerAll(x) + LowerAll(below + zone)
    ensures IsReverse(LowerAll(below + zone)) ==> IsReverse(LowerAll((x + below) + zone))
  {
    if IsReverse(LowerAll(below + zone)) {
      ReverseBeneath(LowerAll(x), LowerAll(below + zone));
    }
  }

  /** A four-label name under svc, which can be an endpoint or a protocol. */
  predicate EndpointLevel(below: Name) {
    |below| == 4 && below[3] == SVC
  }

  /** What r asks for beneath wide cannot exist without it: it is narrower, or for the same pod. */
  predicate Beneath(r: RecordRequest, wide: RecordRequest) {
    && r.podOrSvc == wide.podOrSvc && r.namespace == wide.namespace
    && (wide.service != "" ==> Narrows(r, wide) || (r.podOrSvc == POD && r.service == wide.service))
  }

  /** Parsable names end in a kind and have at most five labels. */
  lemma ParsedShape(x: Name, below: Name)
    requires LowerName(x) && LowerName(below) && x != [] && below != []
    requires RequestOf(x + below).Parsed?
    ensures |x + below| <= 5 && (below[|below| - 1] == SVC || below[|below| - 1] == POD)
    ensures forall i :: 0 <= i < |below| ==> (x + below)[|x| + i] == below[i]
  {
    assert (x + below)[|x + below| - 1] == below[|below| - 1];
  }

  /** Kind, namespace and service are the last three labels. */
  lemma RequestTail(name: Name)
    requires ProperName(name) && 2 <= |name| <= 5 && (name[|name| - 1] == SVC || name[|name| - 1] == POD)
    ensures RequestOf(name).Parsed?
    ensures var r, n := RequestOf(name).request, |name|;
            && r.podOrSvc == name[n - 1] && r.namespace == name[n - 2]
            && r.service == (if n >= 3 then name[n - 3] else "")
            && (n == 3 ==> r.port == r.protocol == "*" && r.endpoint == "")
  {
  }

  /** The request for a name beneath a service or pod name, or below a port, is refused or narrower. */
  lemma BeneathRequest(x: Name, below: Name)
    requires LowerName(x) && LowerName(below) && x != [] && |below| >= 2 && !EndpointLevel(below)
    requires RequestOf(x + below).Parsed?
    ensures RequestOf(below).Parsed? && Beneath(RequestOf(x + below).request, RequestOf(below).request)
  {
    ParsedShape(x, below);
    RequestTail(x + below);
    RequestTail(below);
    var n, m := |x + below|, |below|;
    assert (x + below)[n - 1] == below[m - 1] && (x + below)[n - 2] == below[m - 2];
    assert m >= 3 ==> (x + below)[n - 3] == below[m - 3];
  }

  /** The service and namespace of a lower-case name are lower case. */
  lemma LowerParts(below: Name)
    requires LowerName(below) && below != [] && RequestOf(below).Parsed?
    ensures LowerRequest(RequestOf(below).request)
  {
    assert Lower("") == "";
  }

  lemma MissingNarrows(k: Kube, r: RecordRequest, wide: RecordRequest, zone: Name)
    requires WellFormed(k) && LowerRequest(r) && LowerRequest(wide) && Narrows(r, wide)
    requires Found(k, wide, zone).err != NoError
    ensures Found(k, r, zone).err == NoItems
  {
    QueryMeaning(k, r, zone);
    QueryMeaning(k, wide, zone);
    if Found(k, r, zone).answers != [] {
      WiderAnswer(k, r, wide, zone, Found(k, r, zone).answers[0]);
    }
  }

  /** A pod query looks at the pod name and namespace only. */
  lemma PodsIgnoreRest(k: Kube, r: RecordRequest, wide: RecordRequest, zone: Name)
    requires r.service == wide.service && r.namespace == wide.namespace
    ensures PodsFound(k, r, zone) == PodsFound(k, wide, zone)
  {
    var ip := HostLabel.DashDecode(r.service);
    FlatMapCongruence((p: Pod) => PodAnswers(k, r, zone, ip, p), (p: Pod) => PodAnswers(k, wide, zone, ip, p),
                      k.PodIndex(ip), k.PodIndex(ip));
  }

  /** A name error for a request is inherited by the requests beneath it. */
  lemma ErrorInherited(k: Kube, r: RecordRequest, wide: RecordRequest, deep: Name, name: Name, zone: Name)
    requires WellFormed(k) && LowerRequest(r) && LowerRequest(wide)
    requires Beneath(r, wide)
    requires IsReverse(name) ==> IsReverse(deep)
    requires IsNameError(Resolved(k, wide, name, zone).err)
    ensures IsNameError(Resolved(k, r, deep, zone).err)
  {
    if wide.service != "" && !IsReverse(deep) && Admitted(k, r) {
      if r.podOrSvc == POD {
        PodsIgnoreRest(k, r, wide, zone);
      } else {
        MissingNarrows(k, r, wide, zone);
      }
    }
  }

  /** The kinds of records exist. */
  lemma KindExists(k: Kube, kind: string, zone: Name)
    requires ProperName(zone) && (kind == SVC || kind == POD)
    ensures !Missing(k, [kind], zone)
  {
    ParsedBelow(k, [kind], zone);
  }

  /** What is asked for beneath a name, and by the name itself. */
  lemma RequestsBeneath(x: Name, below: Name) returns (r: RecordRequest, wide: RecordRequest)
    requires LowerName(x) && LowerName(below) && x != [] && 2 <= |below| && !EndpointLevel(below)
    requires RequestOf(x + below).Parsed?
    ensures RequestOf(x + below) == Parsed(r) && RequestOf(below) == Parsed(wide)
    ensures LowerRequest(r) && LowerRequest(wide)
    ensures Beneath(r, wide)
  {
    BeneathRequest(x, below);
    r, wide := RequestOf(x + below).request, RequestOf(below).request;
    LowerParts(x + below);
    LowerParts(below);
  }

  lemma BeneathInherits(k: Kube, r: RecordRequest, wide: RecordRequest, x: Name, below: Name, zone: Name)
    requires WellFormed(k) && LowerRequest(r) && LowerRequest(wide)
    requires Beneath(r, wide)
    requires IsNameError(Resolved(k, wide, LowerAll(below + zone), zone).err)
    ensures IsNameError(Resolved(k, r, LowerAll((x + below) + zone), zone).err)
  {
    LowerBeneath(x, below, zone);
    ErrorInherited(k, r, wide, LowerAll((x + below) + zone), LowerAll(below + zone), zone);
  }

  /** If a kind, a namespace, or a service or pod name does not exist, no name beneath it does; and
      nothing exists beneath a name with a port and a protocol. Only four labels under svc are excepted. */
  lemma NothingBeneath(k: Kube, x: Name, below: Name, zone: Name)
    requires WellFormed(k) && ProperName(zone) && LowerName(x) && LowerName(below) && x != [] && below != []
    requires !EndpointLevel(below)
    requires Missing(k, below, zone)
    ensures Missing(k, x + below, zone)
  {
    ParsedBelow(k, below, zone);
    ParsedBelow(k, x + below, zone);
    if RequestOf(x + below).Parsed? {
      if |below| == 1 {
        ParsedShape(x, below);
        assert below == [below[0]];
        KindExists(k, below[0], zone);
      }
      var r, wide := RequestsBeneath(x, below);
      BeneathInherits(k, r, wide, x, below, zone);
    }
  }

  // ---------------------------------------------------------------------------------------------
  // The protocol level parses as an endpoint, so names can exist beneath a missing one.
  // ---------------------------------------------------------------------------------------------

  /** The service has a port of this protocol: its own, or for a headless service one of a subset
      that holds an address. An external name has every port. */
  ghost predicate HasProtocol(k: Kube, svc: Service, protocol: string) {
    if Headless(svc) then
      exists ep, sub, p ::
        && ep in k.endpoints && ep.name == svc.name && ep.namespace == svc.namespace
        && sub in ep.subsets && sub.addresses != [] && p in sub.ports && Match(protocol, p.protocol)
    else if svc.svcType.ExternalNameService? then k.hostKind(svc.externalName).HostName?
    else exists p :: p in svc.ports && Match(protocol, p.protocol)
  }

  /** Some name can exist at the port level: the namespace is admitted, and the service label is a
      wildcard in a named namespace, or a visible service has a port of the protocol. */
  ghost predicate PortLevelExists(k: Kube, protocol: string, name: string, ns: string) {
    && (Wildcard(ns) || k.NamespaceExposed(ns))
    && ((Wildcard(name) && !Wildcard(ns))
        || exists svc :: && svc in k.services && Match(ns, svc.namespace) && Match(name, svc.name)
                         && k.NamespaceExposed(svc.namespace) && !Empty(k, name, ns, svc)
                         && HasProtocol(k, svc, protocol))
  }

  /** Hidden by the ignore-empty option. */
  ghost predicate Empty(k: Kube, name: string, ns: string, svc: Service) {
    && k.ignoreEmptyService && !Headless(svc) && !svc.svcType.ExternalNameService?
    && if Wildcard(name) || Wildcard(ns) then AddressCount(k.endpoints) == 0 else NoAddresses(svc, k.endpoints)
  }

  lemma ProtocolOffered(k: Kube, r: RecordRequest, zone: Name, svc: Service)
    requires WellFormed(k) && svc in k.services && r.port == "*" && r.endpoint == ""
    ensures HasProtocol(k, svc, r.protocol) <==> exists a :: Offer(k, r, zone, svc, k.endpoints, a)
  {
    if HasProtocol(k, svc, r.protocol) {
      var a := OfferOf(k, r, zone, svc);
    }
    if a :| Offer(k, r, zone, svc, k.endpoints, a) {
      if Headless(svc) {
        var ep, sub, addr, p :|
          && ep in k.endpoints && ep.name == svc.name && ep.namespace == svc.namespace
          && sub in ep.subsets && addr in sub.addresses && p in sub.ports
          && AddressMatches(k, r, addr) && PortMatches(r, p)
          && a == EndpointAnswer(k, zone, svc, addr, p);
        assert sub.addresses != [] && Match(r.protocol, p.protocol);
      } else if !svc.svcType.ExternalNameService? {
        var p :| p in svc.ports && PortMatches(r, p) && a == ClusterAnswer(k, zone, svc, p);
        assert Match(r.protocol, p.protocol);
      }
    }
  }

  lemma OfferOf(k: Kube, r: RecordRequest, zone: Name, svc: Service) returns (a: Answer)
    requires WellFormed(k) && svc in k.services && r.port == "*" && r.endpoint == ""
    requires HasProtocol(k, svc, r.protocol)
    ensures Offer(k, r, zone, svc, k.endpoints, a)
  {
    if Headless(svc) {
      var ep, sub, p :|
        && ep in k.endpoints && ep.name == svc.name && ep.namespace == svc.namespace
        && sub in ep.subsets && sub.addresses != [] && p in sub.ports && Match(r.protocol, p.protocol);
      var addr := sub.addresses[0];
      a := EndpointAnswer(k, zone, svc, addr, p);
      assert AddressMatches(k, r, addr) && PortMatches(r, p);
    } else if svc.svcType.ExternalNameService? {
      a := ExternalAnswer(k, zone, svc);
    } else {
      var p :| p in svc.ports && Match(r.protocol, p.protocol);
      a := ClusterAnswer(k, zone, svc, p);
      assert PortMatches(r, p);
    }
  }

  /** A proper answer to a request for any port comes from a visible service with the protocol. */
  lemma PortLevelProper(k: Kube, r: RecordRequest, zone: Name, svc: Service)
    requires WellFormed(k) && svc in k.services && LowerRequest(r) && r.port == "*" && r.endpoint == ""
    requires Admitted(k, r)
    ensures (exists a :: Selected(k, r, svc) && !Hidden(k, r, svc) && Offer(k, r, zone, svc, k.endpoints, a)) <==>
            && Match(r.namespace, svc.namespace) && Match(r.service, svc.name) && k.NamespaceExposed(svc.namespace)
            && !Empty(k, r.service, r.namespace, svc) && HasProtocol(k, svc, r.protocol)
  {
    ProtocolOffered(k, r, zone, svc);
    assert WellFormedService(k, svc);
    assert Hidden(k, r, svc) <==> Empty(k, r.service, r.namespace, svc);
  }

  lemma AnyPortIff(k: Kube, r: RecordRequest, zone: Name)
    requires WellFormed(k) && LowerRequest(r) && r.port == "*" && r.endpoint == "" && r.service != ""
    ensures Admitted(k, r) && Found(k, r, zone).err == NoError <==>
            PortLevelExists(k, r.protocol, r.service, r.namespace)
  {
    QueryMeaning(k, r, zone);
    if Admitted(k, r) {
      forall svc | svc in k.services
        ensures (exists a :: Selected(k, r, svc) && !Hidden(k, r, svc) && Offer(k, r, zone, svc, k.endpoints, a)) <==>
                && Match(r.namespace, svc.namespace) && Match(r.service, svc.name)
                && k.NamespaceExposed(svc.namespace)
                && !Empty(k, r.service, r.namespace, svc) && HasProtocol(k, svc, r.protocol)
      {
        PortLevelProper(k, r, zone, svc);
      }
      var answers := Found(k, r, zone).answers;
      if answers != [] {
        assert answers[0] in answers && Proper(k, r, zone, answers[0]);
      }
      if svc, a :| && svc in k.services && Selected(k, r, svc) && !Hidden(k, r, svc)
                   && Offer(k, r, zone, svc, k.endpoints, a) {
        assert Proper(k, r, zone, a) && a in answers;
      }
    }
  }

  /** Below a four-label name every name is missing exactly when nothing can exist at the port level:
      when no visible service of that name has a port of that protocol. */
  lemma ProtocolLevelIff(k: Kube, protocol: string, name: string, ns: string, zone: Name)
    requires WellFormed(k) && ForwardZone(zone) && LowerName([protocol, name, ns, SVC])
    ensures (forall x :: LowerName([x]) ==> Missing(k, [x, protocol, name, ns, SVC], zone))
            <==> !PortLevelExists(k, ProtocolAsked(protocol), name, ns)
  {
    var any, tail := ["*", protocol, name, ns, SVC], [protocol, name, ns, SVC];
    assert tail[0] == protocol && tail[1] == name && tail[2] == ns;
    assert Lower("*") == "*" && LowerName(["*"]);
    var r := QueryFive(k, "*", protocol, name, ns, zone);
    AnyPortIff(k, r, zone);
    if Missing(k, any, zone) {
      forall x | LowerName([x])
        ensures Missing(k, [x, protocol, name, ns, SVC], zone)
      {
        AnyPortMissing(k, x, protocol, name, ns, zone);
      }
    }
  }

  /** The protocol a label asks for. */
  function ProtocolAsked(text: string): string {
    if text == "" then "" else StripUnderscore(text)
  }

  lemma FiveLabels(x: string, protocol: string, name: string, ns: string) returns (r: RecordRequest)
    requires x != "" && protocol != "" && name != "" && ns != ""
    requires Lower(x) == x && Lower(protocol) == protocol && Lower(name) == name && Lower(ns) == ns
    ensures r == PortRequest(StripUnderscore(x), StripUnderscore(protocol), name, ns)
    ensures var below := [x, protocol, name, ns, SVC];
            LowerName(below) && RequestOf(below) == Parsed(r)
  {
    assert Lower(SVC) == SVC;
    r := PortRequest(StripUnderscore(x), StripUnderscore(protocol), name, ns);
  }

  /** What a five-label name asks for. */
  lemma QueryFive(k: Kube, x: string, protocol: string, name: string, ns: string, zone: Name) returns (r: RecordRequest)
    requires ForwardZone(zone) && x != "" && protocol != "" && name != "" && ns != ""
    requires Lower(x) == x && Lower(protocol) == protocol && Lower(name) == name && Lower(ns) == ns
    ensures r == PortRequest(StripUnderscore(x), StripUnderscore(protocol), name, ns) && LowerRequest(r)
    ensures ProperName([x, protocol, name, ns, SVC] + zone)
    ensures ErrorOf(k, [x, protocol, name, ns, SVC], zone)
            == if Admitted(k, r) then Found(k, r, zone).err else NsNotExposed
  {
    r := FiveLabels(x, protocol, name, ns);
    QueryBelow(k, [x, protocol, name, ns, SVC], zone);
  }

  lemma AnyPortMissing(k: Kube, x: string, protocol: string, name: string, ns: string, zone: Name)
    requires WellFormed(k) && ForwardZone(zone) && LowerName([protocol, name, ns, SVC]) && LowerName([x])
    requires Missing(k, ["*", protocol, name, ns, SVC], zone)
    ensures Missing(k, [x, protocol, name, ns, SVC], zone)
  {
    var tail := [protocol, name, ns, SVC];
    assert tail[0] == protocol && tail[1] == name && tail[2] == ns && [x][0] == x;
    assert Lower("*") == "*";
    var wide := QueryFive(k, "*", protocol, name, ns, zone);
    var r := QueryFive(k, x, protocol, name, ns, zone);
    if Admitted(k, r) {
      MissingNarrows(k, r, wide, zone);
    }
  }

  /** Such names exist: the protocol name of any answered named port is missing, unless an endpoint
      happens to carry it, while the port's own name beneath it is answered. */
  lemma PortBeneathMissing(k: Kube, svc: Service, p: Port, zone: Name)
    requires WellFormed(k) && ForwardZone(zone) && svc in k.services && k.NamespaceExposed(svc.namespace)
    requires !Headless(svc) && !svc.svcType.ExternalNameService? && !k.ignoreEmptyService
    requires p in svc.ports && Lower(p.name) == p.name && Lower(p.protocol) == p.protocol
    requires forall e, sub, addr :: e in k.endpoints && sub in e.subsets && addr in sub.addresses
               ==> k.Hostname(addr) != "_" + p.protocol
    ensures Missing(k, ["_" + p.protocol, svc.name, svc.namespace, SVC], zone)
    ensures ProperName(["_" + p.name, "_" + p.protocol, svc.name, svc.namespace, SVC] + zone)
    ensures ErrorOf(k, ["_" + p.name, "_" + p.protocol, svc.name, svc.namespace, SVC], zone) == NoError
  {
    LowerConcat("_", p.protocol);
    LowerConcat("_", p.name);
    assert Lower("_") == "_";
    var host := "_" + p.protocol;
    QueryEndpoint(k, zone, host, svc.name, svc.namespace);
    EndpointMissing(k, svc, host, zone);
    var r := QueryFive(k, "_" + p.name, host, svc.name, svc.namespace, zone);
    PortAnswered(k, r, svc, p, zone);
  }

  lemma PortAnswered(k: Kube, r: RecordRequest, svc: Service, p: Port, zone: Name)
    requires WellFormed(k) && svc in k.services && k.NamespaceExposed(svc.namespace)
    requires !Headless(svc) && !svc.svcType.ExternalNameService? && !k.ignoreEmptyService
    requires p in svc.ports && r == PortRequest(p.name, p.protocol, svc.name, svc.namespace)
    ensures Found(k, r, zone).err == NoError
  {
    QueryMeaning(k, r, zone);
    assert PortMatches(r, p) && Selected(k, r, svc) && !Hidden(k, r, svc);
    assert Proper(k, r, zone, ClusterAnswer(k, zone, svc, p));
  }

  lemma EndpointMissing(k: Kube, svc: Service, host: string, zone: Name)
    requires WellFormed(k) && svc in k.services && ExactLabel(host)
    requires forall e, sub, addr :: e in k.endpoints && sub in e.subsets && addr in sub.addresses ==>
             k.Hostname(addr) != host
    ensures Found(k, EndpointRequest(host, svc.name, svc.namespace), zone).err == NoItems
  {
    var r := EndpointRequest(host, svc.name, svc.namespace);
    QueryMeaning(k, r, zone);
    var answers := Found(k, r, zone).answers;
    if answers != [] {
      var a := answers[0];
      assert a in answers;
      var s :| s in k.services && Selected(k, r, s) && !Hidden(k, r, s) && Offer(k, r, zone, s, k.endpoints, a);
      NotOffered(k, r, zone, s, a);
      assert false;
    }
  }

  lemma NotOffered(k: Kube, r: RecordRequest, zone: Name, s: Service, a: Answer)
    requires WellFormed(k) && ExactLabel(r.endpoint)
    requires forall e, sub, addr :: e in k.endpoints && sub in e.subsets && addr in sub.addresses ==>
             k.Hostname(addr) != r.endpoint
    ensures !Offer(k, r, zone, s, k.endpoints, a)
  {
    forall ep, sub, addr | ep in k.endpoints && sub in ep.subsets && addr in sub.addresses
      ensures !AddressMatches(k, r, addr)
    {
      assert StoredLabel(k.Hostname(addr));
    }
  }
}
