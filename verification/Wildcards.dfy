/** Wildcard queries are unions of the exact queries they cover. */
module Wildcards {
  import opened Objects
  import opened Parse
  import opened Backend
  import opened ServiceQuery
  import opened Meaning
  import opened Agreement
  import opened Reverse

  /** e replaces the wildcard service or namespace of r by an exact name, in an exposed namespace. */
  predicate Covers(k: Kube, r: RecordRequest, e: RecordRequest) {
    && e == r.(service := e.service, namespace := e.namespace)
    && (if Wildcard(r.service) then ExactLabel(e.service) else e.service == r.service)
    && (if Wildcard(r.namespace) then ExactLabel(e.namespace) && k.NamespaceExposed(e.namespace)
        else e.namespace == r.namespace)
  }

  /** The exact request for one service that r selects. */
  function ExactFor(r: RecordRequest, svc: Service): RecordRequest {
    r.(service := if Wildcard(r.service) then svc.name else r.service,
       namespace := if Wildcard(r.namespace) then svc.namespace else r.namespace)
  }

  /** What a service offers does not depend on how it was named. */
  lemma OfferIgnoresName(k: Kube, r: RecordRequest, e: RecordRequest, zone: Name, svc: Service, a: Answer)
    requires e == r.(service := e.service, namespace := e.namespace)
    ensures Offer(k, r, zone, svc, k.endpoints, a) <==> Offer(k, e, zone, svc, k.endpoints, a)
  {
    if EndpointOffer(k, r, zone, svc, k.endpoints, a) {
      var ep, sub, addr, p :|
        && ep in k.endpoints && ep.name == svc.name && ep.namespace == svc.namespace
        && sub in ep.subsets && addr in sub.addresses && p in sub.ports
        && AddressMatches(k, r, addr) && PortMatches(r, p)
        && a == EndpointAnswer(k, zone, svc, addr, p);
      assert AddressMatches(k, e, addr) && PortMatches(e, p);
    }
    if EndpointOffer(k, e, zone, svc, k.endpoints, a) {
      var ep, sub, addr, p :|
        && ep in k.endpoints && ep.name == svc.name && ep.namespace == svc.namespace
        && sub in ep.subsets && addr in sub.addresses && p in sub.ports
        && AddressMatches(k, e, addr) && PortMatches(e, p)
        && a == EndpointAnswer(k, zone, svc, addr, p);
      assert AddressMatches(k, r, addr) && PortMatches(r, p);
    }
    if ClusterOffer(k, r, zone, svc, a) {
      var p :| p in svc.ports && PortMatches(r, p) && a == ClusterAnswer(k, zone, svc, p);
      assert PortMatches(e, p);
    }
    if ClusterOffer(k, e, zone, svc, a) {
      var p :| p in svc.ports && PortMatches(e, p) && a == ClusterAnswer(k, zone, svc, p);
      assert PortMatches(r, p);
    }
  }

  /** The service r selects is selected by its exact request, which r covers; and what a covered
      request selects, r selects. */
  lemma SelectedExactly(k: Kube, r: RecordRequest, svc: Service)
    requires WellFormedService(k, svc) && LowerRequest(r) && Admitted(k, r) && Selected(k, r, svc)
    ensures Covers(k, r, ExactFor(r, svc)) && Selected(k, ExactFor(r, svc), svc)
    ensures Exact(ExactFor(r, svc)) && LowerRequest(ExactFor(r, svc)) && Admitted(k, ExactFor(r, svc))
  {
  }

  lemma CoveredSelects(k: Kube, r: RecordRequest, e: RecordRequest, svc: Service)
    requires WellFormedService(k, svc) && LowerRequest(r) && Covers(k, r, e) && Admitted(k, e) && Selected(k, e, svc)
    ensures Selected(k, r, svc) && Admitted(k, r) && LowerRequest(e) && Exact(e)
  {
  }

  /** A service the exact query hides because it is empty, while the cluster is not. */
  ghost predicate Stranded(k: Kube, svc: Service) {
    && k.ignoreEmptyService && !Headless(svc) && !svc.svcType.ExternalNameService?
    && NoAddresses(svc, k.endpoints) && AddressCount(k.endpoints) != 0
  }

  /** Hiding by the exact query and by the wildcard query differ only for stranded services. */
  lemma HiddenCompared(k: Kube, r: RecordRequest, e: RecordRequest, svc: Service)
    requires !Exact(r) && Exact(e)
    ensures Hidden(k, r, svc) ==> Hidden(k, e, svc)
    ensures Hidden(k, e, svc) && !Hidden(k, r, svc) <==> Stranded(k, svc)
  {
    AddressCountIff(k.endpoints);
  }

  lemma CoveredAnswer(k: Kube, r: RecordRequest, e: RecordRequest, zone: Name, a: Answer)
    requires WellFormed(k) && LowerRequest(r) && !Exact(r) && Covers(k, r, e) && LowerRequest(e)
    requires a in Found(k, e, zone).answers
    ensures a in Found(k, r, zone).answers
  {
    QueryMeaning(k, e, zone);
    QueryMeaning(k, r, zone);
    var svc :| svc in k.services && Selected(k, e, svc) && !Hidden(k, e, svc) && Offer(k, e, zone, svc, k.endpoints, a);
    CoveredSelects(k, r, e, svc);
    HiddenCompared(k, r, e, svc);
    OfferIgnoresName(k, r, e, zone, svc, a);
    assert Proper(k, r, zone, a);
  }

  /** A wildcard query always answers everything the exact queries it covers answer. Without the
      ignore-empty option it answers nothing else. */
  lemma WildcardUnion(k: Kube, r: RecordRequest, zone: Name, a: Answer)
    requires WellFormed(k) && LowerRequest(r) && !Exact(r)
    ensures (exists e :: Covers(k, r, e) && LowerRequest(e) && a in Found(k, e, zone).answers)
            ==> a in Found(k, r, zone).answers
    ensures !k.ignoreEmptyService && a in Found(k, r, zone).answers
            ==> exists e :: Covers(k, r, e) && LowerRequest(e) && a in Found(k, e, zone).answers
  {
    if e :| Covers(k, r, e) && LowerRequest(e) && a in Found(k, e, zone).answers {
      CoveredAnswer(k, r, e, zone, a);
    }
    if !k.ignoreEmptyService && a in Found(k, r, zone).answers {
      QueryMeaning(k, r, zone);
      var svc :| svc in k.services && Selected(k, r, svc) && !Hidden(k, r, svc) &&
          Offer(k, r, zone, svc, k.endpoints, a);
      ExactAnswer(k, r, zone, svc, a);
    }
  }

  lemma ExactAnswer(k: Kube, r: RecordRequest, zone: Name, svc: Service, a: Answer)
    requires WellFormed(k) && LowerRequest(r) && !Exact(r) && Admitted(k, r) && r.service != ""
    requires svc in k.services && Selected(k, r, svc) && !Hidden(k, r, svc) && !Stranded(k, svc)
    requires Offer(k, r, zone, svc, k.endpoints, a)
    ensures Covers(k, r, ExactFor(r, svc)) && LowerRequest(ExactFor(r, svc))
    ensures a in Found(k, ExactFor(r, svc), zone).answers
  {
    var e := ExactFor(r, svc);
    SelectedExactly(k, r, svc);
    OfferIgnoresName(k, r, e, zone, svc, a);
    HiddenCompared(k, r, e, svc);
    QueryMeaning(k, e, zone);
    assert Proper(k, e, zone, a);
  }

  /** An endpoint is only ever answered for by a service that is not empty. */
  lemma EndpointNotStranded(k: Kube, r: RecordRequest, zone: Name, svc: Service, a: Answer)
    requires r.endpoint != "" && Offer(k, r, zone, svc, k.endpoints, a)
    ensures !Stranded(k, svc)
  {
    var ep, sub, addr, p :|
      && ep in k.endpoints && ep.name == svc.name && ep.namespace == svc.namespace
      && sub in ep.subsets && addr in sub.addresses && p in sub.ports
      && AddressMatches(k, r, addr) && PortMatches(r, p)
      && a == EndpointAnswer(k, zone, svc, addr, p);
    assert sub.addresses != [];
  }

  /** Some stranded service the request selects has a port it asks for, and no endpoint is asked for. */
  ghost predicate AsksStranded(k: Kube, r: RecordRequest) {
    && Admitted(k, r) && r.service != "" && r.endpoint == ""
    && exists svc, p :: && svc in k.services && Selected(k, r, svc) && Stranded(k, svc)
                        && p in svc.ports && PortMatches(r, p)
  }

  /** With the option on or off, the union law holds for a wildcard request unless it asks for a port
      of a stranded service, and only then; requests for an endpoint always keep it. */
  lemma UnionLawIff(k: Kube, r: RecordRequest, zone: Name)
    requires WellFormed(k) && UniqueServices(k) && LowerRequest(r) && !Exact(r)
    ensures (forall a :: a in Found(k, r, zone).answers ==>
               exists e :: Covers(k, r, e) && LowerRequest(e) && a in Found(k, e, zone).answers)
            <==> !AsksStranded(k, r)
  {
    QueryMeaning(k, r, zone);
    if AsksStranded(k, r) {
      var svc, p :| svc in k.services && Selected(k, r, svc) && Stranded(k, svc) && p in svc.ports && PortMatches(r, p);
      var a := ClusterAnswer(k, zone, svc, p);
      SelectedExactly(k, r, svc);
      HiddenCompared(k, r, ExactFor(r, svc), svc);
      assert Proper(k, r, zone, a);
      forall e | Covers(k, r, e) && LowerRequest(e)
        ensures a !in Found(k, e, zone).answers
      {
        StrandedUnanswered(k, r, e, zone, svc, p);
      }
    } else {
      forall a | a in Found(k, r, zone).answers
        ensures exists e :: Covers(k, r, e) && LowerRequest(e) && a in Found(k, e, zone).answers
      {
        var svc :| svc in k.services && Selected(k, r, svc) && !Hidden(k, r, svc) &&
            Offer(k, r, zone, svc, k.endpoints, a);
        OfferedNotStranded(k, r, zone, svc, a);
        ExactAnswer(k, r, zone, svc, a);
      }
    }
  }

  lemma OfferedNotStranded(k: Kube, r: RecordRequest, zone: Name, svc: Service, a: Answer)
    requires svc in k.services && Selected(k, r, svc) && Offer(k, r, zone, svc, k.endpoints, a)
    requires Admitted(k, r) && r.service != "" && !AsksStranded(k, r)
    ensures !Stranded(k, svc)
  {
    if r.endpoint != "" {
      EndpointNotStranded(k, r, zone, svc, a);
    }
  }

  /** A service is determined by its key, and every answer's key extends its service's. */
  lemma KeyService(zone: Name, s: Service, svc: Service)
    requires ServiceKey(zone, s) == ServiceKey(zone, svc)
    ensures s.name == svc.name && s.namespace == svc.namespace
  {
    var key1, key2 := ServiceKey(zone, s), ServiceKey(zone, svc);
    var n := |zone| + 1;
    assert key1[n + 1] == s.namespace && key1[n + 2] == s.name;
    assert key2[n + 1] == svc.namespace && key2[n + 2] == svc.name;
  }

  lemma OfferKey(k: Kube, r: RecordRequest, zone: Name, svc: Service, a: Answer)
    requires Offer(k, r, zone, svc, k.endpoints, a)
    ensures ServiceKey(zone, svc) <= a.key
  {
  }

  /** No exact query answers with a stranded service's address. */
  lemma StrandedUnanswered(k: Kube, r: RecordRequest, e: RecordRequest, zone: Name, svc: Service, p: Port)
    requires WellFormed(k) && UniqueServices(k) && LowerRequest(r) && !Exact(r) && r.endpoint == ""
    requires Covers(k, r, e) && LowerRequest(e) && svc in k.services && Stranded(k, svc)
    ensures ClusterAnswer(k, zone, svc, p) !in Found(k, e, zone).answers
  {
    var a := ClusterAnswer(k, zone, svc, p);
    if a in Found(k, e, zone).answers {
      QueryMeaning(k, e, zone);
      var s :| s in k.services && Selected(k, e, s) && !Hidden(k, e, s) && Offer(k, e, zone, s, k.endpoints, a);
      CoveredSelects(k, r, e, s);
      HiddenCompared(k, r, e, s);
      OfferKey(k, e, zone, s, a);
      KeyService(zone, s, svc);
      assert false;
    }
  }
}
