/** The cached, stripped-down Kubernetes objects and their conversion from API objects. */
module Objects {
  import opened Sequences

  datatype Port = Port(name: string, protocol: string, port: int)

  datatype ServiceType = ClusterIPService | NodePortService | LoadBalancerService | ExternalNameService | OtherService

  const CLUSTER_IP_NONE := "None"

  datatype Service = Service(
    version: string,
    name: string,
    namespace: string,
    index: string,
    clusterIP: string,
    svcType: ServiceType,
    externalName: string,
    ports: seq<Port>,
    externalIPs: seq<string>)

  datatype Address = Address(ip: string, hostname: string, nodeName: string, targetRefName: string)

  datatype Subset = Subset(addresses: seq<Address>, ports: seq<Port>)

  datatype Endpoints = Endpoints(
    version: string,
    name: string,
    namespace: string,
    index: string,
    indexIP: seq<string>,
    subsets: seq<Subset>)

  datatype Pod = Pod(version: string, podIP: string, name: string, namespace: string)

  /** The key under which services and endpoints are indexed by name and namespace. */
  function NameKey(name: string, namespace: string): string {
    name + "." + namespace
  }

  /** The key determines the name and the namespace, provided namespaces contain no dot. */
  lemma NameKeyInjective(name1: string, ns1: string, name2: string, ns2: string)
    requires '.' !in ns1 && '.' !in ns2
    ensures NameKey(name1, ns1) == NameKey(name2, ns2) <==> name1 == name2 && ns1 == ns2
  {
    var k1, k2 := NameKey(name1, ns1), NameKey(name2, ns2);
    KeyDot(name1, ns1);
    KeyDot(name2, ns2);
    if k1 == k2 {
      assert |name1| == |name2|;
      assert name1 == k1[..|name1|] == k2[..|name2|] == name2;
      assert ns1 == k1[|name1| + 1..] == k2[|name2| + 1..] == ns2;
    }
  }

  /** The last dot of a key separates its two parts. */
  lemma KeyDot(name: string, ns: string)
    requires '.' !in ns
    ensures NameKey(name, ns)[|name|] == '.'
    ensures forall i :: |name| < i < |NameKey(name, ns)| ==> NameKey(name, ns)[i] != '.'
  {
    assert forall i :: |name| < i < |NameKey(name, ns)| ==> NameKey(name, ns)[i] == ns[i - |name| - 1];
  }

  /** The addresses of an Endpoints object in order, over all its subsets. */
  function AddressIPs(subsets: seq<Subset>): seq<string> {
    FlatMap(SubsetIPs, subsets)
  }

  function SubsetIPs(sub: Subset): (ips: seq<string>)
    ensures forall ip :: ip in ips <==> exists a :: a in sub.addresses && a.ip == ip
  {
    var ips := seq(|sub.addresses|, i requires 0 <= i < |sub.addresses| => sub.addresses[i].ip);
    assert forall i :: 0 <= i < |ips| ==> sub.addresses[i] in sub.addresses && ips[i] == sub.addresses[i].ip;
    ips
  }

  lemma AddressIPsIff(subsets: seq<Subset>, ip: string)
    ensures ip in AddressIPs(subsets) <==>
            exists sub, a :: sub in subsets && a in sub.addresses && a.ip == ip
  {
    if ip in AddressIPs(subsets) {
      var sub := FlatMapSource(SubsetIPs, subsets, ip);
      assert exists a :: a in sub.addresses && a.ip == ip;
    }
    if sub, a :| sub in subsets && a in sub.addresses && a.ip == ip {
      FlatMapMember(SubsetIPs, subsets, sub, ip);
    }
  }

  // ---------------------------------------------------------------------------------------------
  // Conversion. An API object is a cell whose content the conversion may clear to save memory.
  // ---------------------------------------------------------------------------------------------

  datatype Option<T> = None | Some(value: T)

  datatype Ingress = Ingress(ip: string, hostname: string)

  datatype ApiServiceContent = ApiServiceContent(
    version: string,
    name: string,
    namespace: string,
    clusterIP: string,
    svcType: ServiceType,
    externalName: string,
    ports: seq<Port>,
    specExternalIPs: seq<string>,
    ingress: seq<Ingress>)

  const EMPTY_API_SERVICE := ApiServiceContent("", "", "", "", OtherService, "", [], [], [])

  class ApiService {
    var content: ApiServiceContent

    constructor (content: ApiServiceContent)
      ensures this.content == content
    {
      this.content := content;
    }
  }

  function IngressAddress(lb: Ingress): string {
    if lb.ip != "" then lb.ip else lb.hostname
  }

  const SENTINEL_PORT := Port("", "", -1)

  /** Converts a service: a port sentinel stands in for an empty port list, and the external
      addresses are the spec's followed by the load balancer's. */
  method ToService(skipCleanup: bool, svc: ApiService) returns (s: Service)
    modifies svc
    ensures var c := old(svc.content);
            && s.version == c.version && s.name == c.name && s.namespace == c.namespace
            && s.index == NameKey(c.name, c.namespace)
            && s.clusterIP == c.clusterIP && s.svcType == c.svcType && s.externalName == c.externalName
            && s.ports == (if c.ports == [] then [Port("", "", -1)] else c.ports)
            && |s.externalIPs| == |c.specExternalIPs| + |c.ingress|
            && s.externalIPs[..|c.specExternalIPs|] == c.specExternalIPs
            && forall i :: 0 <= i < |c.ingress| ==>
                 s.externalIPs[|c.specExternalIPs| + i]
                 == if c.ingress[i].ip != "" then c.ingress[i].ip else c.ingress[i].hostname
    ensures svc.content == if skipCleanup then old(svc.content) else EMPTY_API_SERVICE
  {
    var c := svc.content;
    var externalIPs := new string[|c.ingress| + |c.specExternalIPs|];
    var ports := if |c.ports| == 0 then [SENTINEL_PORT] else c.ports;
    var li := |c.specExternalIPs|;
    for i := 0 to li
      modifies externalIPs
      invariant forall k :: 0 <= k < i ==> externalIPs[k] == c.specExternalIPs[k]
    {
      externalIPs[i] := c.specExternalIPs[i];
    }
    for i := 0 to |c.ingress|
      modifies externalIPs
      invariant externalIPs[..li] == c.specExternalIPs
      invariant forall k :: 0 <= k < i ==> externalIPs[li + k] == IngressAddress(c.ingress[k])
    {
      var lb := c.ingress[i];
      if lb.ip != "" {
        externalIPs[li + i] := lb.ip;
      } else {
        externalIPs[li + i] := lb.hostname;
      }
    }
    s := Service(c.version, c.name, c.namespace, NameKey(c.name, c.namespace), c.clusterIP,
                 c.svcType, c.externalName, ports, externalIPs[..]);
    if !skipCleanup {
      svc.content := EMPTY_API_SERVICE;
    }
  }

  datatype ApiAddress = ApiAddress(ip: string, hostname: string, nodeName: Option<string>, targetRef: Option<string>)

  datatype ApiSubset = ApiSubset(addresses: seq<ApiAddress>, ports: seq<Port>)

  datatype ApiEndpointsContent = ApiEndpointsContent(
    version: string,
    name: string,
    namespace: string,
    subsets: seq<ApiSubset>)

  const EMPTY_API_ENDPOINTS := ApiEndpointsContent("", "", "", [])

  class ApiEndpoints {
    var content: ApiEndpointsContent

    constructor (content: ApiEndpointsContent)
      ensures this.content == content
    {
      this.content := content;
    }
  }

  function StripAddress(a: ApiAddress): Address {
    Address(a.ip, a.hostname,
            if a.nodeName.Some? then a.nodeName.value else "",
            if a.targetRef.Some? then a.targetRef.value else "")
  }

  /** sub is what the cache keeps of the API subset api. */
  predicate Strips(sub: Subset, api: ApiSubset) {
    && |sub.addresses| == |api.addresses|
    && (forall j :: 0 <= j < |api.addresses| ==> sub.addresses[j] == StripAddress(api.addresses[j]))
    && sub.ports == if api.ports == [] then [SENTINEL_PORT] else api.ports
  }

  method StripSubset(eps: ApiSubset) returns (sub: Subset)
    ensures Strips(sub, eps)
  {
    var addresses := new Address[|eps.addresses|](_ => Address("", "", "", ""));
    for j := 0 to |eps.addresses|
      invariant forall k :: 0 <= k < j ==> addresses[k] == StripAddress(eps.addresses[k])
    {
      var a := eps.addresses[j];
      var ea := Address(a.ip, a.hostname, "", "");
      if a.nodeName.Some? {
        ea := ea.(nodeName := a.nodeName.value);
      }
      if a.targetRef.Some? {
        ea := ea.(targetRefName := a.targetRef.value);
      }
      addresses[j] := ea;
    }
    if |eps.ports| == 0 {
      sub := Subset(addresses[..], [SENTINEL_PORT]);
    } else {
      sub := Subset(addresses[..], eps.ports);
    }
  }

  /** Converts an Endpoints object. The reverse index lists exactly the addresses of its subsets. */
  method ToEndpoints(skipCleanup: bool, end: ApiEndpoints) returns (e: Endpoints)
    modifies end
    ensures var c := old(end.content);
            && e.version == c.version && e.name == c.name && e.namespace == c.namespace
            && e.index == NameKey(c.name, c.namespace)
            && |e.subsets| == |c.subsets|
            && (forall i :: 0 <= i < |c.subsets| ==> Strips(e.subsets[i], c.subsets[i]))
            && e.indexIP == AddressIPs(e.subsets)
    ensures var c := old(end.content);
            forall i :: 0 <= i < |c.subsets| ==>
              && |e.subsets[i].addresses| == |c.subsets[i].addresses|
              && (forall j :: 0 <= j < |c.subsets[i].addresses| ==>
                    var kept, given := e.subsets[i].addresses[j], c.subsets[i].addresses[j];
                    && kept.ip == given.ip && kept.hostname == given.hostname
                    && kept.nodeName == (if given.nodeName == None then "" else given.nodeName.value)
                    && kept.targetRefName == (if given.targetRef == None then "" else given.targetRef.value))
              && e.subsets[i].ports == if c.subsets[i].ports == [] then [Port("", "", -1)] else c.subsets[i].ports
    ensures end.content == if skipCleanup then old(end.content) else EMPTY_API_ENDPOINTS
  {
    var c := end.content;
    var subsets := new Subset[|c.subsets|](_ => Subset([], []));
    for i := 0 to |c.subsets|
      modifies subsets
      invariant forall k :: 0 <= k < i ==> Strips(subsets[k], c.subsets[k])
    {
      subsets[i] := StripSubset(c.subsets[i]);
    }
    var indexIP: seq<string> := [];
    ghost var stripped := subsets[..];
    for i := 0 to |c.subsets|
      modifies {}
      invariant subsets[..] == stripped
      invariant indexIP == AddressIPs(stripped[..i])
    {
      FlatMapNext(SubsetIPs, stripped, i);
      ghost var before := indexIP;
      for j := 0 to |c.subsets[i].addresses|
        invariant indexIP == before + SubsetIPs(stripped[i])[..j]
      {
        indexIP := indexIP + [c.subsets[i].addresses[j].ip];
      }
    }
    assert stripped[..|c.subsets|] == stripped;
    e := Endpoints(c.version, c.name, c.namespace, NameKey(c.name, c.namespace), indexIP, subsets[..]);
    if !skipCleanup {
      end.content := EMPTY_API_ENDPOINTS;
    }
  }
}
