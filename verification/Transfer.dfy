/** Zone transfer: every record of the exposed services, in order. */
module Transfer {
  import opened Sequences
  import opened Text
  import opened Objects
  import opened Parse
  import opened Backend

  datatype Record =
    | ARecord(owner: Name, ip: string)
    | AAAARecord(owner: Name, ip: string)
    | SRVRecord(owner: Name, target: Name, port: nat, weight: nat)
    | CNAMERecord(owner: Name, alias: string)

  /** The channel records are sent on. */
  class RecordChannel {
    var sent: seq<Record>
    var closed: bool

    constructor ()
      ensures sent == [] && !closed
    {
      sent, closed := [], false;
    }

    method Send(rr: Record)
      requires !closed
      modifies this`sent
      ensures sent == old(sent) + [rr]
    {
      sent := sent + [rr];
    }

    method Close()
      requires !closed
      modifies this`closed
      ensures closed
    {
      closed := true;
    }
  }

  // ---------------------------------------------------------------------------------------------
  // SRV weights
  // ---------------------------------------------------------------------------------------------

  /** The share of one of n equal targets, in percent and at least one. */
  function SRVWeight(n: nat): nat
    requires n >= 1
  {
    if n > 100 then 1 else 100 / n
  }

  /** Weights stay in range, shrink as targets are added, and for up to a hundred targets use up
      the hundred percent as far as equal whole shares can. */
  lemma SRVWeightShares(n: nat, m: nat)
    requires 1 <= n <= m
    ensures 1 <= SRVWeight(n) <= 100
    ensures SRVWeight(m) <= SRVWeight(n)
    ensures n <= 100 ==> 100 - n < n * SRVWeight(n) <= 100
  {
    if n <= 100 {
      QuotientIs(n, 100 / n);
      if m <= 100 {
        QuotientIs(m, 100 / m);
        MulMonotone(100 / m, n, m);
        QuotientAtLeast(n, 100 / m);
      }
    }
  }

  lemma QuotientIs(n: nat, q: nat)
    requires 1 <= n <= 100 && q == 100 / n
    ensures 1 <= q <= 100 && 100 - n < n * q <= 100
  {
    assert 100 == n * q + 100 % n;
    QuotientAtLeast(n, 1);
    MulMonotone(q, 1, n);
  }

  lemma QuotientAtLeast(n: nat, q: nat)
    requires 1 <= n && n * q <= 100
    ensures q <= 100 / n
  {
    var d := 100 / n;
    assert 100 == n * d + 100 % n;
    assert n * (d + 1) == n * d + n;
    if q > d {
      MulMonotone(n, d + 1, q);
      assert false;
    }
  }

  lemma MulMonotone(a: nat, b: nat, c: nat)
    requires b <= c
    ensures a * b <= a * c
  {
  }

  /** The exact value of the floating-point formula. */
  lemma FloorOfShare(total: nat, n: nat)
    requires n >= 1 && total == 100 * n
    ensures ((100.0 / total as real) * 100.0).Floor == 100 / n
  {
    var q := 100 / n;
    assert n * q <= 100 < n * (q + 1) by {
      assert 100 == n * q + 100 % n;
      assert n * (q + 1) == n * q + n;
    }
    var x := (100.0 / total as real) * 100.0;
    ShareTimesCount(total, n, x);
    RealBelow(n, q, x);
    RealAbove(n, q + 1, x);
  }

  lemma ShareTimesCount(total: nat, n: nat, x: real)
    requires n >= 1 && total == 100 * n && x == (100.0 / total as real) * 100.0
    ensures x * n as real == 100.0
  {
    var t := total as real;
    assert t == 100.0 * n as real;
    assert (100.0 / t) * t == 100.0;
    assert x * n as real == (100.0 / t) * (100.0 * n as real);
  }

  lemma RealBelow(n: nat, q: nat, x: real)
    requires n >= 1 && x * n as real == 100.0 && n * q <= 100
    ensures q as real <= x
  {
    assert (n * q) as real == n as real * q as real;
    assert (x - q as real) * n as real >= 0.0;
  }

  lemma RealAbove(n: nat, q: nat, x: real)
    requires n >= 1 && x * n as real == 100.0 && 100 < n * q
    ensures x < q as real
  {
    assert (n * q) as real == n as real * q as real;
    assert (q as real - x) * n as real > 0.0;
  }

  /** Accumulates the default weight of every target under priority 0. Without targets the quotient is
      infinite, and converting it to 16 bits may give anything. */
  method CalcSRVWeight(numServices: nat) returns (weight: nat)
    ensures 1 <= weight < 0x1_0000
    ensures numServices >= 1 ==> weight == SRVWeight(numServices)
  {
    var w: map<int, nat> := map[];
    for i := 0 to numServices
      invariant i == 0 ==> w == map[]
      invariant i > 0 ==> 0 in w && w[0] == 100 * i
    {
      if 0 !in w {
        w := w[0 := 100];
      } else {
        w := w[0 := w[0] + 100];
      }
    }
    if 0 in w {
      FloorOfShare(w[0], numServices);
      weight := ((100.0 / w[0] as real) * 100.0).Floor;
      SRVWeightShares(if numServices <= 100 then numServices else 1, numServices);
    } else {
      weight :| weight < 0x1_0000;
    }
    if weight == 0 {
      weight := 1;
    }
  }

  // ---------------------------------------------------------------------------------------------
  // The transfer as a function.
  // ---------------------------------------------------------------------------------------------

  /** A port number as SRV records carry it, truncated to 16 bits. */
  function Uint16(port: int): nat {
    port % 0x1_0000
  }

  function BaseKey(zone: Name, svc: Service): seq<string> {
    ZonePath(zone, TRANSFER_PREFIX) + [SVC, svc.namespace, svc.name]
  }

  function PortKey(zone: Name, svc: Service, p: Port): seq<string> {
    BaseKey(zone, svc) + ["_" + Lower(p.protocol), "_" + Lower(p.name)]
  }

  /** The address record of a host, none when the host is not an address. */
  function AddressRecords(k: Kube, key: seq<string>, host: string): seq<Record>
    requires key != []
  {
    match k.hostKind(host)
    case HostA => [ARecord(Domain(key), host)]
    case HostAAAA => [AAAARecord(Domain(key), host)]
    case HostName => []
  }

  function AddressOwner(k: Kube, key: seq<string>, host: string): Name
    requires key != []
  {
    if k.hostKind(host).HostName? then [] else Domain(key)
  }

  function ClusterPortRecords(k: Kube, zone: Name, svc: Service, p: Port): seq<Record> {
    var target := AddressOwner(k, BaseKey(zone, svc), svc.clusterIP);
    [SRVRecord(Domain(BaseKey(zone, svc)), target, Uint16(p.port), 100)]
    + (if p.name == "" then [] else [SRVRecord(Domain(PortKey(zone, svc, p)), target, Uint16(p.port), 100)])
  }

  function ClusterRecords(k: Kube, zone: Name, svc: Service): seq<Record> {
    AddressRecords(k, BaseKey(zone, svc), svc.clusterIP) + ClusterPorts(k, zone, svc)
  }

  function ClusterPorts(k: Kube, zone: Name, svc: Service): seq<Record> {
    FlatMap((p: Port) => ClusterPortRecords(k, zone, svc, p), svc.ports)
  }

  function EndpointKey(k: Kube, zone: Name, svc: Service, addr: Address): seq<string> {
    BaseKey(zone, svc) + [k.Hostname(addr)]
  }

  function EndpointPortRecords(k: Kube, zone: Name, svc: Service, addr: Address, weight: nat, p: Port): seq<Record> {
    if p.name == "" then []
    else [SRVRecord(Domain(PortKey(zone, svc, p)), AddressOwner(k, EndpointKey(k, zone, svc, addr), addr.ip),
                    Uint16(p.port), weight)]
  }

  function EndpointRecords(k: Kube, zone: Name, svc: Service, ports: seq<Port>, weight: nat,
                           addr: Address): seq<Record> {
    AddressRecords(k, BaseKey(zone, svc), addr.ip)
    + AddressRecords(k, EndpointKey(k, zone, svc, addr), addr.ip)
    + FlatMap((p: Port) => EndpointPortRecords(k, zone, svc, addr, weight, p), ports)
  }

  function SubsetRecords(k: Kube, zone: Name, svc: Service, sub: Subset): seq<Record> {
    if sub.addresses == [] then []
    else
      var weight := SRVWeight(|sub.addresses|);
      FlatMap((addr: Address) => EndpointRecords(k, zone, svc, sub.ports, weight, addr), sub.addresses)
  }

  function EndpointsRecords(k: Kube, zone: Name, svc: Service, ep: Endpoints): seq<Record> {
    if ep.name == svc.name && ep.namespace == svc.namespace
    then FlatMap((sub: Subset) => SubsetRecords(k, zone, svc, sub), ep.subsets) else []
  }

  function HeadlessRecords(k: Kube, zone: Name, svc: Service): seq<Record> {
    FlatMap((ep: Endpoints) => EndpointsRecords(k, zone, svc, ep), k.EpIndex(NameKey(svc.name, svc.namespace)))
  }

  function ServiceRecords(k: Kube, zone: Name, svc: Service): seq<Record> {
    if !k.NamespaceExposed(svc.namespace) then []
    else match svc.svcType
      case ExternalNameService =>
        if k.hostKind(svc.externalName).HostName? then [CNAMERecord(Domain(BaseKey(zone, svc)),
           svc.externalName)] else []
      case OtherService => []
      case _ =>
        if !k.hostKind(svc.clusterIP).HostName? then ClusterRecords(k, zone, svc) else HeadlessRecords(k, zone, svc)
  }

  function TransferRecords(k: Kube, zone: Name): seq<Record> {
    FlatMap((svc: Service) => ServiceRecords(k, zone, svc), k.services)
  }

  // ---------------------------------------------------------------------------------------------
  // The transfer as it runs.
  // ---------------------------------------------------------------------------------------------

  method EmitAddressRecord(c: RecordChannel, k: Kube, key: seq<string>, host: string) returns (owner: Name)
    requires key != [] && !c.closed
    modifies c`sent
    ensures c.sent == old(c.sent) + AddressRecords(k, key, host)
    ensures owner == AddressOwner(k, key, host)
  {
    owner := [];
    match k.hostKind(host) {
      case HostA =>
        var arec := ARecord(Domain(key), host);
        owner := arec.owner;
        c.Send(arec);
      case HostAAAA =>
        var arec := AAAARecord(Domain(key), host);
        owner := arec.owner;
        c.Send(arec);
      case HostName =>
    }
  }

  method EmitClusterPort(c: RecordChannel, k: Kube, zone: Name, svc: Service, host: Name, p: Port)
    requires !c.closed && host == AddressOwner(k, BaseKey(zone, svc), svc.clusterIP)
    modifies c`sent
    ensures c.sent == old(c.sent) + ClusterPortRecords(k, zone, svc, p)
  {
    c.Send(SRVRecord(Domain(BaseKey(zone, svc)), host, Uint16(p.port), 100));
    if p.name == "" {
      return;
    }
    c.Send(SRVRecord(Domain(PortKey(zone, svc, p)), host, Uint16(p.port), 100));
  }

  method EmitClusterService(c: RecordChannel, k: Kube, zone: Name, svc: Service)
    requires !c.closed
    modifies c`sent
    ensures c.sent == old(c.sent) + ClusterRecords(k, zone, svc)
  {
    var host := EmitAddressRecord(c, k, BaseKey(zone, svc), svc.clusterIP);
    EmitClusterPorts(c, k, zone, svc, host);
  }

  method EmitClusterPorts(c: RecordChannel, k: Kube, zone: Name, svc: Service, host: Name)
    requires !c.closed && host == AddressOwner(k, BaseKey(zone, svc), svc.clusterIP)
    modifies c`sent
    ensures c.sent == old(c.sent) + ClusterPorts(k, zone, svc)
  {
    ghost var before := c.sent;
    ghost var step := (p: Port) => ClusterPortRecords(k, zone, svc, p);
    for i := 0 to |svc.ports|
      invariant c.sent == before + FlatMap(step, svc.ports[..i])
    {
      FlatMapAppend(before, step, svc.ports, i);
      EmitClusterPort(c, k, zone, svc, host, svc.ports[i]);
    }
    assert svc.ports[..|svc.ports|] == svc.ports;
  }

  method EmitEndpoint(c: RecordChannel, k: Kube, zone: Name, svc: Service, ports: seq<Port>, weight: nat, addr: Address)
    requires !c.closed
    modifies c`sent
    ensures c.sent == old(c.sent) + EndpointRecords(k, zone, svc, ports, weight, addr)
  {
    var _ := EmitAddressRecord(c, k, BaseKey(zone, svc), addr.ip);
    var host := EmitAddressRecord(c, k, EndpointKey(k, zone, svc, addr), addr.ip);
    ghost var before := c.sent;
    ghost var step := (p: Port) => EndpointPortRecords(k, zone, svc, addr, weight, p);
    for i := 0 to |ports|
      invariant c.sent == before + FlatMap(step, ports[..i])
    {
      FlatMapAppend(before, step, ports, i);
      var p := ports[i];
      if p.name == "" {
        continue;
      }
      c.Send(SRVRecord(Domain(PortKey(zone, svc, p)), host, Uint16(p.port), weight));
    }
    assert ports[..|ports|] == ports;
  }

  method EmitSubset(c: RecordChannel, k: Kube, zone: Name, svc: Service, eps: Subset)
    requires !c.closed
    modifies c`sent
    ensures c.sent == old(c.sent) + SubsetRecords(k, zone, svc, eps)
  {
    var weight := CalcSRVWeight(|eps.addresses|);
    ghost var before := c.sent;
    ghost var step := (addr: Address) => EndpointRecords(k, zone, svc, eps.ports, weight, addr);
    for i := 0 to |eps.addresses|
      invariant c.sent == before + FlatMap(step, eps.addresses[..i])
    {
      FlatMapAppend(before, step, eps.addresses, i);
      EmitEndpoint(c, k, zone, svc, eps.ports, weight, eps.addresses[i]);
    }
    assert eps.addresses[..|eps.addresses|] == eps.addresses;
  }

  method EmitEndpoints(c: RecordChannel, k: Kube, zone: Name, svc: Service, ep: Endpoints)
    requires !c.closed
    modifies c`sent
    ensures c.sent == old(c.sent) + EndpointsRecords(k, zone, svc, ep)
  {
    if ep.name != svc.name || ep.namespace != svc.namespace {
      return;
    }
    ghost var before := c.sent;
    ghost var step := (sub: Subset) => SubsetRecords(k, zone, svc, sub);
    for i := 0 to |ep.subsets|
      invariant c.sent == before + FlatMap(step, ep.subsets[..i])
    {
      FlatMapAppend(before, step, ep.subsets, i);
      EmitSubset(c, k, zone, svc, ep.subsets[i]);
    }
    assert ep.subsets[..|ep.subsets|] == ep.subsets;
  }

  method EmitService(c: RecordChannel, k: Kube, zone: Name, svc: Service)
    requires !c.closed
    modifies c`sent
    ensures c.sent == old(c.sent) + ServiceRecords(k, zone, svc)
  {
    if !k.NamespaceExposed(svc.namespace) {
      return;
    }
    match svc.svcType {
      case ExternalNameService =>
        if k.hostKind(svc.externalName).HostName? {
          c.Send(CNAMERecord(Domain(BaseKey(zone, svc)), svc.externalName));
        }
      case OtherService =>
      case _ =>
        if !k.hostKind(svc.clusterIP).HostName? {
          EmitClusterService(c, k, zone, svc);
          return;
        }
        var endpointsList := k.EpIndex(svc.name + "." + svc.namespace);
        ghost var before := c.sent;
        ghost var step := (ep: Endpoints) => EndpointsRecords(k, zone, svc, ep);
        for i := 0 to |endpointsList|
          invariant c.sent == before + FlatMap(step, endpointsList[..i])
        {
          FlatMapAppend(before, step, endpointsList, i);
          EmitEndpoints(c, k, zone, svc, endpointsList[i]);
        }
        assert endpointsList[..|endpointsList|] == endpointsList;
    }
  }

  /** Sends the whole zone and closes the channel. */
  method SendZone(c: RecordChannel, k: Kube, zone: Name)
    requires !c.closed
    modifies c
    ensures c.sent == old(c.sent) + TransferRecords(k, zone) && c.closed
  {
    ghost var before := c.sent;
    ghost var step := (svc: Service) => ServiceRecords(k, zone, svc);
    for i := 0 to |k.services|
      invariant !c.closed
      invariant c.sent == before + FlatMap(step, k.services[..i])
    {
      FlatMapAppend(before, step, k.services, i);
      EmitService(c, k, zone, k.services[i]);
    }
    assert k.services[..|k.services|] == k.services;
    c.Close();
  }
}
