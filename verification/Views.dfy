/** What queries, transfers and reverse lookups can see of the endpoints. */
module Views {
  import HostLabel
  import Text
  import opened Sequences
  import opened Objects
  import opened Parse
  import opened Backend
  import opened ServiceQuery
  import opened Records
  import opened Transfer
  import opened Reverse

  /** The part of an address that reaches an answer: its IP and the label it is published under. */
  function VisibleAddress(mode: bool, a: Address): (v: Address)
    ensures HostLabel.EndpointHostname(v, mode) == HostLabel.EndpointHostname(a, mode)
  {
    Address(a.ip, HostLabel.EndpointHostname(a, mode), "", "")
  }

  function VisibleSubset(mode: bool, sub: Subset): Subset {
    Subset(seq(|sub.addresses|, i requires 0 <= i < |sub.addresses| => VisibleAddress(mode, sub.addresses[i])),
      sub.ports)
  }

  function VisibleSubsets(mode: bool, subsets: seq<Subset>): seq<Subset> {
    seq(|subsets|, i requires 0 <= i < |subsets| => VisibleSubset(mode, subsets[i]))
  }

  function VisibleEndpoints(mode: bool, e: Endpoints): Endpoints {
    Endpoints("", e.name, e.namespace, e.index, e.indexIP, VisibleSubsets(mode, e.subsets))
  }

  function VisibleList(mode: bool, list: seq<Endpoints>): seq<Endpoints> {
    seq(|list|, i requires 0 <= i < |list| => VisibleEndpoints(mode, list[i]))
  }

  function Visible(k: Kube): Kube {
    k.(endpoints := VisibleList(k.endpointNameMode, k.endpoints))
  }

  /** v reads like k: the same configuration, services, pods and exposed namespaces, and the visible
      part of its endpoints. */
  ghost predicate ReadsLike(k: Kube, v: Kube) {
    && v == k.(endpoints := v.endpoints, clusterNamespaces := v.clusterNamespaces)
    && v.endpoints == VisibleList(k.endpointNameMode, k.endpoints)
    && forall ns :: v.NamespaceExposed(ns) == k.NamespaceExposed(ns)
  }

  lemma VisibleCons(mode: bool, e: Endpoints, rest: seq<Endpoints>)
    ensures VisibleList(mode, [e] + rest) == [VisibleEndpoints(mode, e)] + VisibleList(mode, rest)
  {
  }

  /** Filtering commutes with taking the visible part, for filters that look at the visible part. */
  lemma {:induction false} FilterVisible(mode: bool, p: Endpoints -> bool, list: seq<Endpoints>)
    requires forall e :: e in list ==> p(VisibleEndpoints(mode, e)) == p(e)
    ensures Filter(p, VisibleList(mode, list)) == VisibleList(mode, Filter(p, list))
  {
    if list != [] {
      var e, rest := list[0], list[1..];
      assert e in list && forall x :: x in rest ==> x in list;
      FilterVisible(mode, p, rest);
      VisibleCons(mode, e, rest);
      assert list == [e] + rest;
      if p(e) {
        VisibleCons(mode, e, Filter(p, rest));
      }
    }
  }

  lemma IndexVisible(k: Kube, v: Kube, key: string)
    requires ReadsLike(k, v)
    ensures v.EpIndex(key) == VisibleList(k.endpointNameMode, k.EpIndex(key))
  {
    FilterVisible(k.endpointNameMode, (e: Endpoints) => e.index == key, k.endpoints);
  }

  // ---------------------------------------------------------------------------------------------
  // Queries
  // ---------------------------------------------------------------------------------------------

  lemma SubsetVisible(k: Kube, v: Kube, r: RecordRequest, zone: Name, svc: Service, sub: Subset)
    requires ReadsLike(k, v)
    ensures SubsetAnswers(v, r, zone, svc, VisibleSubset(k.endpointNameMode, sub)) == SubsetAnswers(k, r,
            zone, svc, sub)
  {
    var w := VisibleSubset(k.endpointNameMode, sub);
    forall i | 0 <= i < |sub.addresses|
      ensures AddressAnswers(v, r, zone, svc, w.ports, w.addresses[i]) == AddressAnswers(k, r, zone, svc, sub.ports,
              sub.addresses[i])
    {
      FlatMapCongruence((p: Port) => PortAnswers(v, r, zone, svc, w.addresses[i], p),
                        (p: Port) => PortAnswers(k, r, zone, svc, sub.addresses[i], p), w.ports, sub.ports);
    }
    FlatMapCongruence((addr: Address) => AddressAnswers(v, r, zone, svc, w.ports, addr),
                      (addr: Address) => AddressAnswers(k, r, zone, svc, sub.ports, addr), w.addresses, sub.addresses);
  }

  lemma EndpointsVisible(k: Kube, v: Kube, r: RecordRequest, zone: Name, svc: Service, ep: Endpoints)
    requires ReadsLike(k, v)
    ensures EndpointsAnswers(v, r, zone, svc, VisibleEndpoints(k.endpointNameMode,
            ep)) == EndpointsAnswers(k, r, zone, svc, ep)
  {
    var subsets := VisibleSubsets(k.endpointNameMode, ep.subsets);
    forall i | 0 <= i < |ep.subsets|
      ensures SubsetAnswers(v, r, zone, svc, subsets[i]) == SubsetAnswers(k, r, zone, svc, ep.subsets[i])
    {
      SubsetVisible(k, v, r, zone, svc, ep.subsets[i]);
    }
    FlatMapCongruence((s: Subset) => SubsetAnswers(v, r, zone, svc, s),
                      (s: Subset) => SubsetAnswers(k, r, zone, svc, s), subsets, ep.subsets);
  }

  lemma AddressIPsVisible(mode: bool, subsets: seq<Subset>)
    ensures AddressIPs(VisibleSubsets(mode, subsets)) == AddressIPs(subsets)
  {
    forall i | 0 <= i < |subsets|
      ensures SubsetIPs(VisibleSubsets(mode, subsets)[i]) == SubsetIPs(subsets[i])
    {
    }
    FlatMapCongruence(SubsetIPs, SubsetIPs, VisibleSubsets(mode, subsets), subsets);
  }

  lemma CountVisible(mode: bool, list: seq<Endpoints>)
    ensures AddressCount(VisibleList(mode, list)) == AddressCount(list)
  {
    var ips := (ep: Endpoints) => AddressIPs(ep.subsets);
    forall i | 0 <= i < |list|
      ensures ips(VisibleList(mode, list)[i]) == ips(list[i])
    {
      AddressIPsVisible(mode, list[i].subsets);
    }
    FlatMapCongruence(ips, ips, VisibleList(mode, list), list);
  }

  lemma ServiceVisible(k: Kube, v: Kube, r: RecordRequest, zone: Name, list: seq<Endpoints>, svc: Service)
    requires ReadsLike(k, v)
    ensures ServiceAnswers(v, r, zone, VisibleList(k.endpointNameMode, list), svc) == ServiceAnswers(k, r,
            zone, list, svc)
  {
    CountVisible(k.endpointNameMode, list);
    forall i | 0 <= i < |list|
      ensures EndpointsAnswers(v, r, zone, svc, VisibleList(k.endpointNameMode, list)[i]) == EndpointsAnswers(k, r,
              zone, svc, list[i])
    {
      EndpointsVisible(k, v, r, zone, svc, list[i]);
    }
    FlatMapCongruence((ep: Endpoints) => EndpointsAnswers(v, r, zone, svc, ep),
                      (ep: Endpoints) => EndpointsAnswers(k, r, zone, svc, ep), VisibleList(k.endpointNameMode,
                        list), list);
    FlatMapCongruence((p: Port) => ClusterAnswers(v, r, zone, svc, p),
                      (p: Port) => ClusterAnswers(k, r, zone, svc, p), svc.ports, svc.ports);
  }

  lemma FoundVisible(k: Kube, v: Kube, r: RecordRequest, zone: Name)
    requires ReadsLike(k, v)
    ensures Found(v, r, zone) == Found(k, r, zone)
  {
    var list := EndpointsCandidates(k, r);
    IndexVisible(k, v, NameKey(r.service, r.namespace));
    assert EndpointsCandidates(v, r) == VisibleList(k.endpointNameMode, list);
    var services := ServiceCandidates(k, r);
    assert ServiceCandidates(v, r) == services;
    forall i | 0 <= i < |services|
      ensures ServiceAnswers(v, r, zone, VisibleList(k.endpointNameMode, list), services[i]) == ServiceAnswers(k, r,
              zone, list, services[i])
    {
      ServiceVisible(k, v, r, zone, list, services[i]);
    }
    FlatMapCongruence((svc: Service) => ServiceAnswers(v, r, zone, VisibleList(k.endpointNameMode, list), svc),
                      (svc: Service) => ServiceAnswers(k, r, zone, list, svc), services, services);
    assert AllAnswers(v, r, zone) == AllAnswers(k, r, zone);
  }

  lemma RecordsVisible(k: Kube, v: Kube, qname: Name, zone: Name)
    requires ReadsLike(k, v)
    requires ProperName(qname)
    ensures RecordsFor(v, qname, zone) == RecordsFor(k, qname, zone)
  {
    var parsed := RequestOf(TrimZone(Text.LowerAll(qname), zone));
    if parsed.Parsed? {
      FoundVisible(k, v, parsed.request, zone);
      PodsVisible(k, v, parsed.request, zone);
    }
  }

  lemma PodsVisible(k: Kube, v: Kube, r: RecordRequest, zone: Name)
    requires ReadsLike(k, v)
    ensures PodsFound(v, r, zone) == PodsFound(k, r, zone)
  {
    var ip := HostLabel.DashDecode(r.service);
    FlatMapCongruence((p: Pod) => PodAnswers(v, r, zone, ip, p), (p: Pod) => PodAnswers(k, r, zone, ip, p),
                      k.PodIndex(ip), k.PodIndex(ip));
  }

  // ---------------------------------------------------------------------------------------------
  // Transfers
  // ---------------------------------------------------------------------------------------------

  lemma EndpointRecordsVisible(k: Kube, v: Kube, zone: Name, svc: Service, ports: seq<Port>, weight: nat, addr: Address)
    requires ReadsLike(k, v)
    ensures EndpointRecords(v, zone, svc, ports, weight, VisibleAddress(k.endpointNameMode, addr))
            == EndpointRecords(k, zone, svc, ports, weight, addr)
  {
    var w := VisibleAddress(k.endpointNameMode, addr);
    FlatMapCongruence((p: Port) => EndpointPortRecords(v, zone, svc, w, weight, p),
                      (p: Port) => EndpointPortRecords(k, zone, svc, addr, weight, p), ports, ports);
  }

  lemma SubsetRecordsVisible(k: Kube, v: Kube, zone: Name, svc: Service, sub: Subset)
    requires ReadsLike(k, v)
    ensures SubsetRecords(v, zone, svc, VisibleSubset(k.endpointNameMode, sub)) == SubsetRecords(k, zone,
            svc, sub)
  {
    if sub.addresses != [] {
      var w, weight := VisibleSubset(k.endpointNameMode, sub), SRVWeight(|sub.addresses|);
      forall i | 0 <= i < |sub.addresses|
        ensures EndpointRecords(v, zone, svc, w.ports, weight, w.addresses[i])
                == EndpointRecords(k, zone, svc, sub.ports, weight, sub.addresses[i])
      {
        EndpointRecordsVisible(k, v, zone, svc, sub.ports, weight, sub.addresses[i]);
      }
      FlatMapCongruence((addr: Address) => EndpointRecords(v, zone, svc, w.ports, weight, addr),
                        (addr: Address) => EndpointRecords(k, zone, svc, sub.ports, weight, addr), w.addresses,
                          sub.addresses);
    }
  }

  lemma EndpointsRecordsVisible(k: Kube, v: Kube, zone: Name, svc: Service, ep: Endpoints)
    requires ReadsLike(k, v)
    ensures EndpointsRecords(v, zone, svc, VisibleEndpoints(k.endpointNameMode, ep)) == EndpointsRecords(k,
            zone, svc, ep)
  {
    var subsets := VisibleSubsets(k.endpointNameMode, ep.subsets);
    forall i | 0 <= i < |ep.subsets|
      ensures SubsetRecords(v, zone, svc, subsets[i]) == SubsetRecords(k, zone, svc, ep.subsets[i])
    {
      SubsetRecordsVisible(k, v, zone, svc, ep.subsets[i]);
    }
    FlatMapCongruence((s: Subset) => SubsetRecords(v, zone, svc, s),
                      (s: Subset) => SubsetRecords(k, zone, svc, s), subsets, ep.subsets);
  }

  lemma ServiceRecordsVisible(k: Kube, v: Kube, zone: Name, svc: Service)
    requires ReadsLike(k, v)
    ensures ServiceRecords(v, zone, svc) == ServiceRecords(k, zone, svc)
  {
    var list := k.EpIndex(NameKey(svc.name, svc.namespace));
    IndexVisible(k, v, NameKey(svc.name, svc.namespace));
    forall i | 0 <= i < |list|
      ensures EndpointsRecords(v, zone, svc, VisibleList(k.endpointNameMode, list)[i]) == EndpointsRecords(k, zone,
              svc, list[i])
    {
      EndpointsRecordsVisible(k, v, zone, svc, list[i]);
    }
    FlatMapCongruence((ep: Endpoints) => EndpointsRecords(v, zone, svc, ep),
                      (ep: Endpoints) => EndpointsRecords(k, zone, svc, ep), VisibleList(k.endpointNameMode, list),
                        list);
    FlatMapCongruence((p: Port) => ClusterPortRecords(v, zone, svc, p),
                      (p: Port) => ClusterPortRecords(k, zone, svc, p), svc.ports, svc.ports);
  }

  lemma TransferVisible(k: Kube, v: Kube, zone: Name)
    requires ReadsLike(k, v)
    ensures TransferRecords(v, zone) == TransferRecords(k, zone)
  {
    forall i | 0 <= i < |k.services|
      ensures ServiceRecords(v, zone, k.services[i]) == ServiceRecords(k, zone, k.services[i])
    {
      ServiceRecordsVisible(k, v, zone, k.services[i]);
    }
    FlatMapCongruence((svc: Service) => ServiceRecords(v, zone, svc),
                      (svc: Service) => ServiceRecords(k, zone, svc), k.services, k.services);
  }

  // ---------------------------------------------------------------------------------------------
  // Reverse lookups
  // ---------------------------------------------------------------------------------------------

  lemma EndpointsPointersVisible(k: Kube, v: Kube, ip: string, ep: Endpoints)
    requires ReadsLike(k, v)
    ensures EndpointsPointers(v, ip, VisibleEndpoints(k.endpointNameMode, ep)) == EndpointsPointers(k, ip, ep)
  {
    var e := VisibleEndpoints(k.endpointNameMode, ep);
    forall i | 0 <= i < |ep.subsets|
      ensures SubsetPointers(v, ip, e, e.subsets[i]) == SubsetPointers(k, ip, ep, ep.subsets[i])
    {
      FlatMapCongruence((addr: Address) => AddressPointers(v, ip, e, addr),
                        (addr: Address) => AddressPointers(k, ip, ep, addr), e.subsets[i].addresses,
                          ep.subsets[i].addresses);
    }
    FlatMapCongruence((s: Subset) => SubsetPointers(v, ip, e, s),
                      (s: Subset) => SubsetPointers(k, ip, ep, s), e.subsets, ep.subsets);
  }

  lemma PointersVisible(k: Kube, v: Kube, ip: string)
    requires ReadsLike(k, v)
    ensures Pointers(v, ip) == Pointers(k, ip)
  {
    var list := k.EpIndexReverse(ip);
    FilterVisible(k.endpointNameMode, (e: Endpoints) => ip in e.indexIP, k.endpoints);
    assert v.EpIndexReverse(ip) == VisibleList(k.endpointNameMode, list);
    FilterCongruence((s: Service) => ReverseVisible(v, s.namespace), (s: Service) => ReverseVisible(k, s.namespace),
                     k.SvcIndexReverse(ip));
    forall i | 0 <= i < |list|
      ensures EndpointsPointers(v, ip, VisibleList(k.endpointNameMode, list)[i]) == EndpointsPointers(k, ip, list[i])
    {
      EndpointsPointersVisible(k, v, ip, list[i]);
    }
    FlatMapCongruence((ep: Endpoints) => EndpointsPointers(v, ip, ep),
                      (ep: Endpoints) => EndpointsPointers(k, ip, ep), VisibleList(k.endpointNameMode, list), list);
  }

  lemma {:induction false} FilterCongruence<A(!new)>(p: A -> bool, q: A -> bool, s: seq<A>)
    requires forall x :: x in s ==> p(x) == q(x)
    ensures Filter(p, s) == Filter(q, s)
  {
    if s != [] {
      assert s[0] in s;
      FilterCongruence(p, q, s[1..]);
    }
  }

  // ---------------------------------------------------------------------------------------------

  /** Two snapshots with the same configuration and services, whose endpoints look the same, give
      the same answers to every query, transfer and reverse lookup, in the same order. */
  ghost predicate SameAnswers(k: Kube, m: Kube) {
    && (forall qname, zone :: ProperName(qname) ==> RecordsFor(k, qname, zone) == RecordsFor(m, qname, zone))
    && (forall zone :: TransferRecords(k, zone) == TransferRecords(m, zone))
    && (forall ip :: Pointers(k, ip) == Pointers(m, ip))
  }

  lemma ReadsAlike(k: Kube, m: Kube, v: Kube)
    requires ReadsLike(k, v) && ReadsLike(m, v)
    ensures SameAnswers(k, m)
  {
    forall qname, zone | ProperName(qname)
      ensures RecordsFor(k, qname, zone) == RecordsFor(m, qname, zone)
    {
      RecordsVisible(k, v, qname, zone);
      RecordsVisible(m, v, qname, zone);
    }
    forall zone
      ensures TransferRecords(k, zone) == TransferRecords(m, zone)
    {
      TransferVisible(k, v, zone);
      TransferVisible(m, v, zone);
    }
    forall ip
      ensures Pointers(k, ip) == Pointers(m, ip)
    {
      PointersVisible(k, v, ip);
      PointersVisible(m, v, ip);
    }
  }

  lemma VisibleDecides(k: Kube, m: Kube)
    requires Visible(k) == Visible(m)
    ensures SameAnswers(k, m)
  {
    ReadsAlike(k, m, Visible(k));
  }
}
