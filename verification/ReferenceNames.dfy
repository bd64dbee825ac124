/** Which request a name stands for, and the answers to pod and reverse queries, told from the cached
    objects and the configuration alone. */
module ReferenceNames {
  import opened Sequences
  import opened Text
  import opened Objects
  import opened Parse
  import opened HostLabel
  import opened Backend
  import opened Reference
  import opened PodMeaning
  import Agreement
  import Records
  import Reverse
  import ServiceQuery

  // ---------------------------------------------------------------------------------------------
  // Names
  // ---------------------------------------------------------------------------------------------

  /** What lower-case labels below the zone ask for. */
  function Asked(l: Name): RecordRequest
    requires ProperName(l) && 2 <= |l| <= 5
  {
    var ns, kind := l[|l| - 2], l[|l| - 1];
    if |l| == 2 then RecordRequest("*", "*", "", "", ns, kind)
    else if |l| == 3 then RecordRequest("*", "*", "", l[0], ns, kind)
    else if |l| == 4 then RecordRequest("*", "*", l[0], l[1], ns, kind)
    else
      RecordRequest(if l[0][0] == '_' then l[0][1..] else l[0], if l[1][0] == '_' then l[1][1..] else l[1],
                    "", l[2], ns, kind)
  }

  /** A name below in-addr.arpa or ip6.arpa. */
  predicate InTree(name: Name) {
    |name| >= 3 && (name[|name| - 2..] == ["in-addr", "arpa"] || name[|name| - 2..] == ["ip6", "arpa"])
  }

  /** The labels end in a kind and are few enough. */
  predicate Sensible(l: Name) {
    2 <= |l| <= 5 && (l[|l| - 1] == "svc" || l[|l| - 1] == "pod")
  }

  /** The answer for lower-case labels below the zone of a name: the zone and its two branches have no
      data; other kinds, and more than five labels, are no request; reverse trees and namespaces not
      allowed hold nothing; the rest is asked of pods or services. */
  function Answered(k: Kube, l: Name, name: Name, zone: Name): Lookup
    requires ProperName(l)
  {
    if l == [] || l == ["svc"] || l == ["pod"] then Lookup([], NoError)
    else if !Sensible(l) then Lookup([], InvalidName)
    else if InTree(name) then Lookup([], NoItems)
    else if !Star(Asked(l).namespace) && !Allowed(k, Asked(l).namespace) then Lookup([], NsNotExposed)
    else if l[|l| - 1] == "pod" then Records.PodsFound(k, Asked(l), zone)
    else ServiceQuery.Found(k, Asked(l), zone)
  }

  lemma RequestAccount(l: Name)
    requires ProperName(l)
    ensures RequestOf(l) == if l == [] || l == ["svc"] || l == ["pod"] then Parsed(EMPTY_REQUEST)
                            else if !Sensible(l) then InvalidRequest
                            else Parsed(Asked(l))
  {
    if |l| == 1 {
      assert l == [l[0]];
    }
  }

  /** The answer to a query for a name in any letter case. */
  lemma DispatchAccount(k: Kube, below: Name, zone: Name)
    requires ProperName(below + zone)
    ensures ProperName(LowerAll(below))
    ensures Records.RecordsFor(k, below + zone, zone) == Answered(k, LowerAll(below), LowerAll(below + zone), zone)
  {
    var l := LowerAll(below);
    Agreement.LowerAllConcat(below, zone);
    ProperParts(below, zone);
    assert TrimZone(LowerAll(below + zone), zone) == l;
    RequestAccount(l);
    if Sensible(l) {
      ResolvedAccount(k, l, LowerAll(below + zone), zone);
    }
  }

  lemma ResolvedAccount(k: Kube, l: Name, name: Name, zone: Name)
    requires ProperName(l) && Sensible(l)
    ensures Records.Resolved(k, Asked(l), name, zone) == Answered(k, l, name, zone)
  {
    InTreeIff(name);
    assert Asked(l).podOrSvc == l[|l| - 1];
  }

  lemma ProperParts(below: Name, zone: Name)
    requires ProperName(below + zone)
    ensures ProperName(below) && ProperName(zone) && ProperName(LowerAll(below))
  {
    assert forall i :: 0 <= i < |below| ==> (below + zone)[i] == below[i];
    assert forall i :: 0 <= i < |zone| ==> (below + zone)[|below| + i] == zone[i];
    forall i | 0 <= i < |below|
      ensures LowerAll(below)[i] != ""
    {
      assert |Lower(below[i])| == |below[i]|;
    }
  }

  lemma InTreeIff(name: Name)
    ensures InTree(name) <==> Records.IsReverse(name)
  {
    if |name| >= 3 {
      assert name[|name| - 2..] == [name[|name| - 2], name[|name| - 1]];
    }
  }

  /** The name of a namespace exists exactly when the namespaces option lists it, or lists none, and the
      cluster has it. */
  lemma NamespaceNameIff(k: Kube, ns: string, zone: Name)
    requires Agreement.ExactLabel(ns) && Agreement.ForwardZone(zone)
    ensures ProperName([ns, "svc"] + zone)
    ensures Records.RecordsFor(k, [ns, "svc"] + zone, zone).err == NoError <==>
            (k.namespaces == {} || ns in k.namespaces) && ns in k.clusterNamespaces
    ensures Records.RecordsFor(k, [ns, "svc"] + zone, zone).answers == []
  {
    var below := [ns, "svc"];
    NamespaceLabels(ns, zone);
    DispatchAccount(k, below, zone);
    NamespaceAnswered(k, ns, LowerAll(below + zone), zone);
  }

  lemma NamespaceLabels(ns: string, zone: Name)
    requires Agreement.ExactLabel(ns) && Agreement.ForwardZone(zone)
    ensures ProperName([ns, "svc"] + zone) && LowerAll([ns, "svc"]) == [ns, "svc"]
    ensures !InTree(LowerAll([ns, "svc"] + zone))
  {
    var below := [ns, "svc"];
    Agreement.KindLabels();
    assert LowerAll(below) == below;
    Agreement.LowerAllConcat(below, zone);
    Agreement.ReverseByZone(below, LowerAll(zone));
    InTreeIff(LowerAll(below + zone));
  }

  lemma NamespaceAnswered(k: Kube, ns: string, name: Name, zone: Name)
    requires ns != "" && !Star(ns) && !InTree(name)
    ensures Answered(k, [ns, "svc"], name, zone) == Lookup([], if Allowed(k, ns) then NoError else NsNotExposed)
  {
    var l := [ns, "svc"];
    assert Asked(l) == RecordRequest("*", "*", "", "", ns, "svc");
  }

  // ---------------------------------------------------------------------------------------------
  // Pods
  // ---------------------------------------------------------------------------------------------

  /** The request stands for this cached pod's address, in a requested and allowed namespace. */
  predicate StandsFor(k: Kube, r: RecordRequest, p: Pod) {
    Allowed(k, p.namespace) && Asks(r.namespace, p.namespace) && p.podIP == DashDecode(r.service)
  }

  /** The answers to a request for pods: none when pods are disabled; one for any address when they are
      not verified; and otherwise only those of cached pods. */
  lemma PodAccount(k: Kube, r: RecordRequest, zone: Name)
    requires StoredPods(k) && Lower(r.namespace) == r.namespace
    ensures var found := Records.PodsFound(k, r, zone);
            var here := Star(r.namespace) || Allowed(k, r.namespace);
            var a := Answer(DashDecode(r.service), 0, k.ttl, ["c"] + Reversed(zone) + ["pod", r.namespace, r.service]);
            && (forall x :: x in found.answers <==>
                  && x == a && here && r.service != "" && k.podMode != PodsDisabled
                  && if k.podMode == PodsInsecure then k.hostKind(a.host) != HostName
                     else exists p :: p in k.pods && StandsFor(k, r, p))
            && (found.err == NoError <==>
                  || found.answers != []
                  || (k.podMode != PodsDisabled && here && r.service == "")
                  || (k.podMode == PodsVerified && here && Star(r.service) && !Star(r.namespace)))
            && found.err in {NoError, NoItems}
  {
    PodQueryMeaning(k, r, zone);
    var a := Records.PodAnswer(k, r, zone, DashDecode(r.service));
    assert a == Answer(DashDecode(r.service), 0, k.ttl, ["c"] + Reversed(zone) + ["pod", r.namespace, r.service]);
    if k.podMode.PodsVerified? {
      VerifiedIff(k, r, zone, a);
      forall p | p in k.pods
        ensures Serves(k, r, p) <==> StandsFor(k, r, p)
      {
      }
    }
  }

  // ---------------------------------------------------------------------------------------------
  // Reverse lookups
  // ---------------------------------------------------------------------------------------------

  /** Names may be given for the namespace: all when the namespaces option lists none. */
  predicate Named(k: Kube, ns: string) {
    k.namespaces == {} || (ns in k.namespaces && ns in k.clusterNamespaces)
  }

  predicate Owns(k: Kube, svc: Service, ip: string) {
    Named(k, svc.namespace) && (svc.clusterIP == ip || ip in svc.externalIPs)
  }

  function ServicePointer(k: Kube, svc: Service): Reverse.PointerAnswer {
    Reverse.PointerAnswer([svc.name, svc.namespace, "svc"] + k.primaryZone, k.ttl)
  }

  ghost predicate PointedEndpoint(k: Kube, ip: string, x: Reverse.PointerAnswer) {
    exists ep, sub, addr, published ::
      && ep in k.endpoints && Named(k, ep.namespace) && sub in ep.subsets && addr in sub.addresses && addr.ip == ip
      && PublishedAs(k.endpointNameMode, addr, published)
      && x == Reverse.PointerAnswer([published, ep.name, ep.namespace, "svc"] + k.primaryZone, k.ttl)
  }

  lemma OwnsIff(k: Kube, svc: Service, ip: string)
    ensures svc in Reverse.PointedServices(k, ip) <==> svc in k.services && Owns(k, svc, ip)
  {
    assert svc in k.SvcIndexReverse(ip) <==> svc in k.services && (ip == svc.clusterIP || ip in svc.externalIPs);
  }

  /** The first element a filter keeps is the first it would keep. */
  lemma {:induction false} FilterFirst<A(!new)>(p: A -> bool, s: seq<A>, i: nat)
    requires i < |s| && p(s[i]) && forall j :: 0 <= j < i ==> !p(s[j])
    ensures Filter(p, s) != [] && Filter(p, s)[0] == s[i]
  {
    if i > 0 {
      FilterFirst(p, s[1..], i - 1);
    }
  }

  lemma {:induction false} FilterTwice<A(!new)>(p: A -> bool, q: A -> bool, both: A -> bool, s: seq<A>)
    requires forall x :: both(x) <==> p(x) && q(x)
    ensures Filter(q, Filter(p, s)) == Filter(both, s)
  {
    if s != [] {
      FilterTwice(p, q, both, s[1..]);
      if p(s[0]) {
        assert Filter(p, s)[1..] == Filter(p, s[1..]);
      }
    }
  }

  /** A reverse lookup gives the name of the first service that may be named and has the address, as its
      own or as an external one; and if there is none, the names of all endpoints with the address. */
  lemma ReverseAccount(k: Kube, ip: string)
    requires WellFormed(k)
    ensures forall i :: 0 <= i < |k.services| && Owns(k, k.services[i], ip)
                        && (forall j :: 0 <= j < i ==> !Owns(k, k.services[j], ip)) ==>
              Reverse.Pointers(k, ip) == [ServicePointer(k, k.services[i])]
    ensures (forall svc :: svc in k.services ==> !Owns(k, svc, ip)) ==>
              forall x :: x in Reverse.Pointers(k, ip) <==> PointedEndpoint(k, ip, x)
  {
    forall i | 0 <= i < |k.services| && Owns(k, k.services[i], ip)
               && (forall j :: 0 <= j < i ==> !Owns(k, k.services[j], ip))
      ensures Reverse.Pointers(k, ip) == [ServicePointer(k, k.services[i])]
    {
      FirstPointed(k, ip, i);
    }
    if forall svc :: svc in k.services ==> !Owns(k, svc, ip) {
      NonePointed(k, ip);
      forall x
        ensures x in Reverse.Pointers(k, ip) <==> PointedEndpoint(k, ip, x)
      {
        Reverse.EndpointPointersIff(k, ip, x);
        PointedEndpointIff(k, ip, x);
      }
    }
  }

  lemma NonePointed(k: Kube, ip: string)
    requires forall svc :: svc in k.services ==> !Owns(k, svc, ip)
    ensures Reverse.PointedServices(k, ip) == []
  {
    var pointed := Reverse.PointedServices(k, ip);
    if pointed != [] {
      var svc := pointed[0];
      assert svc in pointed;
      OwnsIff(k, svc, ip);
      assert false;
    }
  }

  lemma FirstPointed(k: Kube, ip: string, i: nat)
    requires i < |k.services| && Owns(k, k.services[i], ip)
    requires forall j :: 0 <= j < i ==> !Owns(k, k.services[j], ip)
    ensures Reverse.Pointers(k, ip) == [ServicePointer(k, k.services[i])]
  {
    var has, named := (s: Service) => ip == s.clusterIP || ip in s.externalIPs,
        (s: Service) => Reverse.ReverseVisible(k, s.namespace);
    var owns := (s: Service) => Owns(k, s, ip);
    FilterTwice(has, named, owns, k.services);
    FilterFirst(owns, k.services, i);
    assert Reverse.PointedServices(k, ip) == Filter(owns, k.services);
  }

  lemma PointedEndpointIff(k: Kube, ip: string, x: Reverse.PointerAnswer)
    ensures PointedEndpoint(k, ip, x) <==>
            exists ep, addr :: Reverse.PointsAt(k, ip, ep, addr) && x == Reverse.EndpointPointer(k, ep, addr)
  {
    if PointedEndpoint(k, ip, x) {
      var ep, sub, addr, published :|
        && ep in k.endpoints && Named(k, ep.namespace) && sub in ep.subsets && addr in sub.addresses && addr.ip == ip
        && PublishedAs(k.endpointNameMode, addr, published)
        && x == Reverse.PointerAnswer([published, ep.name, ep.namespace, "svc"] + k.primaryZone, k.ttl);
      LabelIff(k.endpointNameMode, addr, published);
      assert Reverse.PointsAt(k, ip, ep, addr);
    }
    if ep, addr :| Reverse.PointsAt(k, ip, ep, addr) && x == Reverse.EndpointPointer(k, ep, addr) {
      var sub :| sub in ep.subsets && addr in sub.addresses;
      LabelIff(k.endpointNameMode, addr, k.Hostname(addr));
      assert Named(k, ep.namespace);
    }
  }
}
