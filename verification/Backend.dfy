/** The resolver's configuration and cache snapshot, and the vocabulary its queries share. */
module Backend {
  import opened Sequences
  import opened Text
  import opened Objects
  import opened Parse
  import opened HostLabel

  datatype HostKind = HostA | HostAAAA | HostName

  datatype PodMode = PodsDisabled | PodsVerified | PodsInsecure

  /** The configuration read by queries together with the cached objects.
      hostKind stands for the IP address parser: it says whether a host is an IPv4 address, an
      IPv6 address, or no address at all. */
  datatype Kube = Kube(
    namespaces: set<string>,
    endpointNameMode: bool,
    ignoreEmptyService: bool,
    podMode: PodMode,
    ttl: nat,
    primaryZone: Name,
    hostKind: string -> HostKind,
    services: seq<Service>,
    endpoints: seq<Endpoints>,
    pods: seq<Pod>,
    clusterNamespaces: seq<string>)
  {
    /** Allowed by the namespaces option, where an empty option allows everything. */
    predicate ConfiguredNamespace(ns: string) {
      !(|namespaces| > 0 && ns !in namespaces)
    }

    predicate NamespaceExposed(ns: string) {
      ConfiguredNamespace(ns) && ns in clusterNamespaces
    }

    function SvcIndex(key: string): seq<Service> {
      Filter((s: Service) => s.index == key, services)
    }

    function EpIndex(key: string): seq<Endpoints> {
      Filter((e: Endpoints) => e.index == key, endpoints)
    }

    function SvcIndexReverse(ip: string): seq<Service> {
      Filter((s: Service) => ip == s.clusterIP || ip in s.externalIPs, services)
    }

    function EpIndexReverse(ip: string): seq<Endpoints> {
      Filter((e: Endpoints) => ip in e.indexIP, endpoints)
    }

    function PodIndex(ip: string): seq<Pod> {
      Filter((p: Pod) => p.podIP == ip, pods)
    }

    function Hostname(addr: Address): string {
      EndpointHostname(addr, endpointNameMode)
    }
  }

  datatype Error = NoError | NoItems | NsNotExposed | InvalidName

  /** Whether the error is reported to the client as a missing name. */
  predicate IsNameError(err: Error) {
    err == NoItems || err == NsNotExposed || err == InvalidName
  }

  /** An answer: a host and port, with a key whose segments run from the root towards the host. */
  datatype Answer = Answer(host: string, port: int, ttl: nat, key: seq<string>)

  datatype Lookup = Lookup(answers: seq<Answer>, err: Error)

  const QUERY_PREFIX := "c"
  const TRANSFER_PREFIX := "coredns"

  /** The key of a zone: a prefix, then its labels from the root down. */
  function ZonePath(zone: Name, prefix: string): seq<string> {
    [prefix] + Reversed(zone)
  }

  /** The domain name of a key: the prefix dropped, the labels leftmost first again. */
  function Domain(key: seq<string>): Name
    requires key != []
  {
    Reversed(key[1..])
  }

  /** The key of a name below a zone denotes that name. */
  lemma DomainOfKey(zone: Name, prefix: string, below: seq<string>)
    ensures Domain(ZonePath(zone, prefix) + below) == Reversed(below) + zone
  {
    assert (ZonePath(zone, prefix) + below)[1..] == Reversed(zone) + below;
    ReversedConcat(Reversed(zone), below);
    ReversedTwice(zone);
  }

  predicate Wildcard(s: string) {
    s == "*" || s == "any"
  }

  /** Equality up to case, with a wildcard on either side matching everything. */
  predicate Match(a: string, b: string) {
    Wildcard(a) || Wildcard(b) || EqualFold(a, b)
  }

  // ---------------------------------------------------------------------------------------------
  // What the Kubernetes API server and the object conversions guarantee of a snapshot.
  // ---------------------------------------------------------------------------------------------

  /** A stored name that can be one label of a query: lower case, no dot, and no wildcard. */
  predicate StoredLabel(s: string) {
    s != "" && Lower(s) == s && '.' !in s && !Wildcard(s)
  }

  /** A port's name and protocol, in any case, are no wildcards. */
  predicate StoredPort(p: Port) {
    && !Wildcard(p.name) && !Wildcard(p.protocol)
    && !Wildcard(Lower(p.name)) && !Wildcard(Lower(p.protocol))
  }

  predicate WellFormedService(k: Kube, s: Service) {
    && s.index == NameKey(s.name, s.namespace)
    && StoredLabel(s.name) && StoredLabel(s.namespace)
    && s.ports != []
    && (forall p :: p in s.ports ==> StoredPort(p))
    && !s.svcType.OtherService?
    && (!s.svcType.ExternalNameService? ==> s.clusterIP == CLUSTER_IP_NONE || !k.hostKind(s.clusterIP).HostName?)
    && (s.svcType.ExternalNameService? ==>
          && s.clusterIP == ""
          && forall e :: e in k.endpoints ==> !(e.name == s.name && e.namespace == s.namespace))
  }

  predicate WellFormedEndpoints(k: Kube, e: Endpoints) {
    && e.index == NameKey(e.name, e.namespace)
    && '.' !in e.namespace
    && e.indexIP == AddressIPs(e.subsets)
    && forall sub :: sub in e.subsets ==>
         && sub.ports != []
         && (forall p :: p in sub.ports ==> StoredPort(p))
         && (forall a :: a in sub.addresses ==> StoredLabel(k.Hostname(a)) && !k.hostKind(a.ip).HostName?)
  }

  predicate WellFormed(k: Kube) {
    && k.hostKind(CLUSTER_IP_NONE).HostName? && k.hostKind("").HostName?
    && (forall s :: s in k.services ==> WellFormedService(k, s))
    && (forall e :: e in k.endpoints ==> WellFormedEndpoints(k, e))
  }
}
