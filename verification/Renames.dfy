/** A run for which the serial is not sound: replacing a pod that endpoints are named after. */
module Renames {
  import opened Objects
  import opened Parse
  import opened Backend
  import opened Informer
  import opened ServiceQuery
  import opened Meaning
  import opened Agreement
  import opened NameErrors
  import Records
  import opened Serial
  import opened Labels

  /** A headless service with one port, and the address one pod serves it under. */
  datatype Scenario = Scenario(name: string, ns: string, ip: string, port: Port, hostKind: string -> HostKind)
  {
    predicate Valid() {
      && StoredLabel(name) && StoredLabel(ns) && StoredPort(port)
      && hostKind(CLUSTER_IP_NONE).HostName? && hostKind("").HostName? && !hostKind(ip).HostName?
    }

    function Headless(): Service {
      Service("", name, ns, NameKey(name, ns), CLUSTER_IP_NONE, ClusterIPService, "", [port], [])
    }

    function Backing(pod: string): Subset {
      Subset([Address(ip, "", "", pod)], [port])
    }

    function BackedBy(pod: string, version: string): Endpoints {
      Endpoints(version, name, ns, NameKey(name, ns), AddressIPs([Backing(pod)]), [Backing(pod)])
    }

    function Key(): Key {
      (ns, name)
    }

    /** The object's history: one version backed by the first pod, every other by the second. */
    function History(before: string, v: string, after: string): Truth {
      Truth((key: Informer.Key, version: string) => Headless(),
        (key: Informer.Key, version: string) => BackedBy(if version == v then before else after, version))
    }

    function Start(before: string, v: string): Cache {
      Holding(map[Key() := Headless()], Key(), BackedBy(before, v))
    }

    function Cluster(pod: string, version: string): Kube {
      Kube({}, true, false, PodsDisabled, 0, [], hostKind, [Headless()], [BackedBy(pod, version)], [], [ns])
    }
  }

  lemma ClusterWellFormed(s: Scenario, pod: string, version: string)
    requires s.Valid() && StoredLabel(pod)
    ensures WellFormed(s.Cluster(pod, version))
    ensures s.Headless() in s.Cluster(pod, version).services && s.Cluster(pod, version).NamespaceExposed(s.ns)
    ensures s.Cluster(pod, version).Hostname(Address(s.ip, "", "", pod)) == pod
  {
    var k := s.Cluster(pod, version);
    var e := s.BackedBy(pod, version);
    assert k.endpoints == [e] && k.services == [s.Headless()];
    assert WellFormedService(k, s.Headless());
    assert WellFormedEndpoints(k, e) by {
      assert e.subsets == [s.Backing(pod)];
      assert s.Backing(pod).addresses == [Address(s.ip, "", "", pod)];
      assert k.Hostname(Address(s.ip, "", "", pod)) == pod;
    }
  }

  /** The objects cached are listed as the cluster they describe. */
  lemma StartSnapshot(s: Scenario, first: string, v: string, pod: string, version: string)
    ensures Snapshot(s.Cluster(first, v), s.Start(pod, version), [s.Key()], [s.Key()]) == s.Cluster(pod, version)
  {
    assert Listing(map[s.Key() := s.Headless()], [s.Key()]) == [s.Headless()];
    assert Listing(map[s.Key() := s.BackedBy(pod, version)], [s.Key()]) == [s.BackedBy(pod, version)];
  }

  /** Delivering the replacement of the pod moves no serial, although the objects delivered and
      cached all belong to one history. */
  lemma RenameRun(s: Scenario, before: string, after: string, v: string, w: string)
    requires v != w
    ensures GenuineSources(s.History(before, v, after), OnlyFrom(s.BackedBy(after, w)))
    ensures GenuineCache(s.History(before, v, after), s.Start(before, v))
    ensures Run(OnlyFrom(s.BackedBy(after, w)), s.Start(before, v), Delivery(s.BackedBy(after, w))) == s.Start(after, w)
  {
    assert SameSubset(s.Backing(before), s.Backing(after));
    OnlyFromGenuine(s.History(before, v, after), s.Key(), s.BackedBy(after, w));
    ReplacementRun(map[s.Key() := s.Headless()], s.Key(), s.BackedBy(before, v), s.BackedBy(after, w));
  }

  /** Over such a run, which never moves the serial, the name of the old pod ceases to exist. */
  lemma RenameUnsound(s: Scenario, before: string, after: string, v: string, w: string, zone: Name)
    requires s.Valid() && StoredLabel(before) && StoredLabel(after) && before != after && v != w && ForwardZone(zone)
    ensures ProperName(EndpointName(zone, before, s.name, s.ns))
    ensures var k, c, keys := s.Cluster(before, v), s.Start(before, v), [s.Key()];
            var d := Run(OnlyFrom(s.BackedBy(after, w)), c, Delivery(s.BackedBy(after, w)));
            var owner := EndpointName(zone, before, s.name, s.ns);
            && d.modified == c.modified && d.services.Keys == d.endpoints.Keys == {s.Key()}
            && Records.RecordsFor(Snapshot(k, c, keys, keys), owner, zone).err == NoError
            && Records.RecordsFor(Snapshot(k, d, keys, keys), owner, zone).err == NoItems
  {
    RenameRun(s, before, after, v, w);
    StartSnapshot(s, before, v, before, v);
    StartSnapshot(s, before, v, after, w);
    OldNameAnswered(s, before, v, zone);
    OldNameMissing(s, before, after, w, zone);
  }

  /** The name of the old pod is answered before the replacement ... */
  lemma OldNameAnswered(s: Scenario, before: string, v: string, zone: Name)
    requires s.Valid() && StoredLabel(before) && ForwardZone(zone)
    ensures ProperName(EndpointName(zone, before, s.name, s.ns))
    ensures Records.RecordsFor(s.Cluster(before, v), EndpointName(zone, before, s.name, s.ns), zone).err == NoError
  {
    ClusterWellFormed(s, before, v);
    QueryEndpoint(s.Cluster(before, v), zone, before, s.name, s.ns);
    PodAnswered(s, before, v, zone);
  }

  /** ... and missing after it. */
  lemma OldNameMissing(s: Scenario, before: string, after: string, w: string, zone: Name)
    requires s.Valid() && StoredLabel(before) && StoredLabel(after) && before != after && ForwardZone(zone)
    ensures ProperName(EndpointName(zone, before, s.name, s.ns))
    ensures Records.RecordsFor(s.Cluster(after, w), EndpointName(zone, before, s.name, s.ns), zone).err == NoItems
  {
    ClusterWellFormed(s, after, w);
    QueryEndpoint(s.Cluster(after, w), zone, before, s.name, s.ns);
    OnlyPod(s, before, after, w);
    EndpointMissing(s.Cluster(after, w), s.Headless(), before, zone);
  }

  lemma OnlyPod(s: Scenario, before: string, after: string, w: string)
    requires s.Valid() && StoredLabel(after) && before != after
    ensures forall e, sub, addr :: e in s.Cluster(after, w).endpoints && sub in e.subsets && addr in sub.addresses
              ==> s.Cluster(after, w).Hostname(addr) != before
  {
    assert s.Cluster(after, w).endpoints == [s.BackedBy(after, w)];
  }

  lemma PodAnswered(s: Scenario, pod: string, v: string, zone: Name)
    requires s.Valid() && StoredLabel(pod)
    ensures Found(s.Cluster(pod, v), EndpointRequest(pod, s.name, s.ns), zone).err == NoError
  {
    var k, r, e := s.Cluster(pod, v), EndpointRequest(pod, s.name, s.ns), s.BackedBy(pod, v);
    ClusterWellFormed(s, pod, v);
    QueryMeaning(k, r, zone);
    var sub, addr := s.Backing(pod), Address(s.ip, "", "", pod);
    assert e in k.endpoints && sub in e.subsets && addr in sub.addresses && s.port in sub.ports;
    assert AddressMatches(k, r, addr) && PortMatches(r, s.port);
    var a := EndpointAnswer(k, zone, s.Headless(), addr, s.port);
    assert EndpointOffer(k, r, zone, s.Headless(), k.endpoints, a);
    assert Proper(k, r, zone, a);
  }
}
