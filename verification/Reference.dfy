/** The answers to queries, told from the cached objects and the configuration alone: an account that
    shares no definition with the resolver but its data, letter case, and the reversal of names. */
module Reference {
  import opened Sequences
  import opened Text
  import opened Objects
  import opened Parse
  import opened HostLabel
  import opened Backend
  import ServiceQuery
  import Meaning

  // ---------------------------------------------------------------------------------------------
  // The vocabulary of the account.
  // ---------------------------------------------------------------------------------------------

  /** The namespaces option lists the namespace, or lists none, and the cluster has it. */
  predicate Allowed(k: Kube, ns: string) {
    (k.namespaces == {} || ns in k.namespaces) && ns in k.clusterNamespaces
  }

  predicate Star(asked: string) {
    asked == "*" || asked == "any"
  }

  predicate Asks(asked: string, stored: string) {
    Star(asked) || asked == stored
  }

  /** The same, in any letter case. */
  predicate AsksFold(asked: string, stored: string) {
    Star(asked) || Lower(asked) == Lower(stored)
  }

  /** Every sep of the text is a dash in the label, and nothing else differs. */
  predicate Dashed(text: string, sep: char, dashed: string) {
    |dashed| == |text| && forall i :: 0 <= i < |text| ==> dashed[i] == if text[i] == sep then '-' else text[i]
  }

  /** The label an address is published under: its host name, or in name mode its pod's name, or else
      its IP with dashes. */
  predicate PublishedAs(mode: bool, addr: Address, published: string) {
    if addr.hostname != "" then published == addr.hostname
    else if mode && addr.targetRefName != "" then published == addr.targetRefName
    else if '.' in addr.ip then Dashed(addr.ip, '.', published)
    else if ':' in addr.ip then Dashed(addr.ip, ':', published)
    else published == ""
  }

  /** One of svc's own Endpoints objects has the address, in this subset. */
  ghost predicate Holds(k: Kube, svc: Service, ep: Endpoints, sub: Subset, addr: Address) {
    && ep in k.endpoints && ep.name == svc.name && ep.namespace == svc.namespace
    && sub in ep.subsets && addr in sub.addresses
  }

  /** The key of a service's name: a prefix, the zone from the root down, the service. */
  function KeyOf(zone: Name, svc: Service): seq<string> {
    ["c"] + Reversed(zone) + ["svc", svc.namespace, svc.name]
  }

  ghost predicate EndpointGives(k: Kube, r: RecordRequest, zone: Name, svc: Service, a: Answer) {
    exists ep, sub, addr, p, published ::
      && Holds(k, svc, ep, sub, addr) && p in sub.ports && PublishedAs(k.endpointNameMode, addr, published)
      && (r.endpoint == "" || AsksFold(r.endpoint, published))
      && AsksFold(r.port, p.name) && AsksFold(r.protocol, p.protocol)
      && a == Answer(addr.ip, p.port, k.ttl, KeyOf(zone, svc) + [published])
  }

  /** What a service gives: a headless one, and any when an endpoint is asked for, its endpoints; an
      external name that name; any other its ClusterIP on each port asked for. */
  ghost predicate Gives(k: Kube, r: RecordRequest, zone: Name, svc: Service, a: Answer) {
    if svc.clusterIP == "None" || r.endpoint != "" then EndpointGives(k, r, zone, svc, a)
    else if svc.svcType == ExternalNameService then
      k.hostKind(svc.externalName) == HostName && a == Answer(svc.externalName, 0, k.ttl, KeyOf(zone, svc))
    else
      exists p :: && p in svc.ports && AsksFold(r.port, p.name) && AsksFold(r.protocol, p.protocol)
                  && a == Answer(svc.clusterIP, p.port, k.ttl, KeyOf(zone, svc))
  }

  /** With the ignore-empty option a ClusterIP service is passed over when it has no addresses, or in a
      wildcard query when nobody has. */
  ghost predicate PassedOver(k: Kube, r: RecordRequest, svc: Service) {
    && k.ignoreEmptyService && svc.clusterIP != "None" && svc.svcType != ExternalNameService
    && forall ep, sub ::
         && ep in k.endpoints && sub in ep.subsets
         && (Star(r.service) || Star(r.namespace) || (ep.name == svc.name && ep.namespace == svc.namespace))
         ==> sub.addresses == []
  }

  /** The answers to a request for services. */
  ghost predicate Answers(k: Kube, r: RecordRequest, zone: Name, a: Answer) {
    exists svc ::
      && svc in k.services && Allowed(k, svc.namespace)
      && Asks(r.namespace, svc.namespace) && Asks(r.service, svc.name)
      && !PassedOver(k, r, svc) && Gives(k, r, zone, svc, a)
  }

  // ---------------------------------------------------------------------------------------------
  // The resolver agrees with the account.
  // ---------------------------------------------------------------------------------------------

  /** Only the letters A to Z have another case. */
  lemma LetterCase(c: char)
    ensures Lower([c]) == [if 'A' <= c <= 'Z' then (c as int - 'A' as int + 'a' as int) as char else c]
  {
    assert |Lower([c])| == 1 && Lower([c])[0] == LowerChar([c][0]);
  }

  /** Letter case is looked at letter by letter. */
  lemma LetterByLetter(s: string, i: nat)
    requires i < |s|
    ensures |Lower(s)| == |s| && Lower(s)[i] == Lower([s[i]])[0]
  {
  }

  lemma LabelIff(mode: bool, addr: Address, published: string)
    ensures PublishedAs(mode, addr, published) <==> published == EndpointHostname(addr, mode)
  {
  }

  /** The combination of address and port is asked for. */
  predicate AsksPair(k: Kube, r: RecordRequest, published: string, p: Port) {
    && (r.endpoint == "" || AsksFold(r.endpoint, published))
    && AsksFold(r.port, p.name) && AsksFold(r.protocol, p.protocol)
  }

  lemma AsksPairIff(k: Kube, r: RecordRequest, ep: Endpoints, sub: Subset, addr: Address, p: Port)
    requires WellFormedEndpoints(k, ep) && sub in ep.subsets && addr in sub.addresses && p in sub.ports
    ensures AsksPair(k, r, k.Hostname(addr), p) <==>
            ServiceQuery.AddressMatches(k, r, addr) && ServiceQuery.PortMatches(r, p)
  {
    assert StoredPort(p) && StoredLabel(k.Hostname(addr));
  }

  lemma GivenOffered(k: Kube, r: RecordRequest, zone: Name, svc: Service, a: Answer)
    requires WellFormed(k) && EndpointGives(k, r, zone, svc, a)
    ensures Meaning.EndpointOffer(k, r, zone, svc, k.endpoints, a)
  {
    var ep, sub, addr, p, published :|
      && Holds(k, svc, ep, sub, addr) && p in sub.ports && PublishedAs(k.endpointNameMode, addr, published)
      && (r.endpoint == "" || AsksFold(r.endpoint, published))
      && AsksFold(r.port, p.name) && AsksFold(r.protocol, p.protocol)
      && a == Answer(addr.ip, p.port, k.ttl, KeyOf(zone, svc) + [published]);
    LabelIff(k.endpointNameMode, addr, published);
    AsksPairIff(k, r, ep, sub, addr, p);
    assert a == ServiceQuery.EndpointAnswer(k, zone, svc, addr, p);
  }

  lemma OfferedGiven(k: Kube, r: RecordRequest, zone: Name, svc: Service, a: Answer)
    requires WellFormed(k) && Meaning.EndpointOffer(k, r, zone, svc, k.endpoints, a)
    ensures EndpointGives(k, r, zone, svc, a)
  {
    var ep, sub, addr, p :|
      && ep in k.endpoints && ep.name == svc.name && ep.namespace == svc.namespace
      && sub in ep.subsets && addr in sub.addresses && p in sub.ports
      && ServiceQuery.AddressMatches(k, r, addr) && ServiceQuery.PortMatches(r, p)
      && a == ServiceQuery.EndpointAnswer(k, zone, svc, addr, p);
    LabelIff(k.endpointNameMode, addr, k.Hostname(addr));
    AsksPairIff(k, r, ep, sub, addr, p);
    assert Holds(k, svc, ep, sub, addr);
    assert a == Answer(addr.ip, p.port, k.ttl, KeyOf(zone, svc) + [k.Hostname(addr)]);
  }

  lemma EndpointGivesIff(k: Kube, r: RecordRequest, zone: Name, svc: Service, a: Answer)
    requires WellFormed(k)
    ensures EndpointGives(k, r, zone, svc, a) <==> Meaning.EndpointOffer(k, r, zone, svc, k.endpoints, a)
  {
    if EndpointGives(k, r, zone, svc, a) {
      GivenOffered(k, r, zone, svc, a);
    }
    if Meaning.EndpointOffer(k, r, zone, svc, k.endpoints, a) {
      OfferedGiven(k, r, zone, svc, a);
    }
  }

  lemma GivesIff(k: Kube, r: RecordRequest, zone: Name, svc: Service, a: Answer)
    requires WellFormed(k) && svc in k.services
    ensures Gives(k, r, zone, svc, a) <==> Meaning.Offer(k, r, zone, svc, k.endpoints, a)
  {
    EndpointGivesIff(k, r, zone, svc, a);
    assert WellFormedService(k, svc);
    forall p | p in svc.ports
      ensures ServiceQuery.PortMatches(r, p) <==> AsksFold(r.port, p.name) && AsksFold(r.protocol, p.protocol)
    {
      assert StoredPort(p);
    }
    if Meaning.ClusterOffer(k, r, zone, svc, a) {
      var p :| p in svc.ports && ServiceQuery.PortMatches(r, p) && a == ServiceQuery.ClusterAnswer(k, zone, svc, p);
      assert AsksFold(r.port, p.name) && AsksFold(r.protocol, p.protocol);
    }
  }

  lemma PassedOverIff(k: Kube, r: RecordRequest, svc: Service)
    ensures PassedOver(k, r, svc) <==> Meaning.Hidden(k, r, svc)
  {
    Meaning.AddressCountIff(k.endpoints);
  }

  lemma SelectedIff(k: Kube, r: RecordRequest, svc: Service)
    requires WellFormed(k) && svc in k.services && Meaning.LowerRequest(r) && r.service != ""
    ensures Meaning.Admitted(k, r) && ServiceQuery.Selected(k, r, svc) <==>
            Allowed(k, svc.namespace) && Asks(r.namespace, svc.namespace) && Asks(r.service, svc.name)
  {
    assert WellFormedService(k, svc);
  }

  /** A query for services answers exactly what the account says. It has no error when it has an
      answer; without one, only for a namespace that is allowed or a wildcard, when the service label is
      absent, or is a wildcard in a named namespace. */
  lemma QueryAccount(k: Kube, r: RecordRequest, zone: Name)
    requires WellFormed(k) && Meaning.LowerRequest(r)
    ensures forall a :: a in ServiceQuery.Found(k, r, zone).answers <==> r.service != "" && Answers(k, r, zone, a)
    ensures ServiceQuery.Found(k, r, zone).err == NoError <==>
            || ServiceQuery.Found(k, r, zone).answers != []
            || ((Star(r.namespace) || Allowed(k, r.namespace))
                && (r.service == "" || (Star(r.service) && !Star(r.namespace))))
    ensures ServiceQuery.Found(k, r, zone).err in {NoError, NoItems}
  {
    Meaning.QueryMeaning(k, r, zone);
    if r.service != "" {
      forall svc, a | svc in k.services
        ensures (Meaning.Admitted(k, r) && ServiceQuery.Selected(k, r, svc) && !Meaning.Hidden(k, r, svc)
                 && Meaning.Offer(k, r, zone, svc, k.endpoints, a))
                <==> (Allowed(k, svc.namespace) && Asks(r.namespace, svc.namespace) && Asks(r.service, svc.name)
                      && !PassedOver(k, r, svc) && Gives(k, r, zone, svc, a))
      {
        SelectedIff(k, r, svc);
        PassedOverIff(k, r, svc);
        GivesIff(k, r, zone, svc, a);
      }
      forall a
        ensures Meaning.Admitted(k, r) && Meaning.Proper(k, r, zone, a) <==> Answers(k, r, zone, a)
      {
      }
    }
  }
}
