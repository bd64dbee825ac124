/** Published labels show in answers; so the serial is sound exactly when none changes unnoticed. */
module Labels {
  import opened Sequences
  import opened Objects
  import HostLabel
  import opened Backend
  import opened Informer
  import opened Views
  import opened Reverse
  import opened Serial

  // ---------------------------------------------------------------------------------------------
  // A reverse lookup tells labels apart.
  // ---------------------------------------------------------------------------------------------

  /** a and b name their addresses alike, up to labels. */
  predicate Alike(a: Endpoints, b: Endpoints) {
    a.name == b.name && a.namespace == b.namespace && SameEndpoints(a, b)
  }

  lemma SubsetPointersTell(k: Kube, ip: string, a: Endpoints, b: Endpoints, sa: Subset, sb: Subset)
    requires a.name == b.name && a.namespace == b.namespace && SameSubset(sa, sb)
    ensures |SubsetPointers(k, ip, a, sa)| == |SubsetPointers(k, ip, b, sb)|
    ensures SubsetPointers(k, ip, a, sa) == SubsetPointers(k, ip, b, sb) ==>
              forall j :: 0 <= j < |sa.addresses| && sa.addresses[j].ip == ip ==>
                k.Hostname(sa.addresses[j]) == k.Hostname(sb.addresses[j])
  {
    var f, g := (addr: Address) => AddressPointers(k, ip, a, addr), (addr: Address) => AddressPointers(k, ip, b, addr);
    FlatMapPositional(f, g, sa.addresses, sb.addresses);
    if SubsetPointers(k, ip, a, sa) == SubsetPointers(k, ip, b, sb) {
      forall j | 0 <= j < |sa.addresses| && sa.addresses[j].ip == ip
        ensures k.Hostname(sa.addresses[j]) == k.Hostname(sb.addresses[j])
      {
        assert f(sa.addresses[j]) == g(sb.addresses[j]);
        var x, y := EndpointPointer(k, a, sa.addresses[j]), EndpointPointer(k, b, sb.addresses[j]);
        assert x == f(sa.addresses[j])[0] == g(sb.addresses[j])[0] == y;
        assert x.host[0] == y.host[0];
      }
    }
  }

  lemma EndpointsPointersTell(k: Kube, ip: string, a: Endpoints, b: Endpoints)
    requires Alike(a, b)
    ensures |EndpointsPointers(k, ip, a)| == |EndpointsPointers(k, ip, b)|
    ensures ReverseVisible(k, a.namespace) && EndpointsPointers(k, ip, a) == EndpointsPointers(k, ip, b) ==>
              forall i, j ::
                0 <= i < |a.subsets| && 0 <= j < |a.subsets[i].addresses| && a.subsets[i].addresses[j].ip == ip
                ==> (assert SameSubset(a.subsets[i], b.subsets[i]);
                     k.Hostname(a.subsets[i].addresses[j]) == k.Hostname(b.subsets[i].addresses[j]))
  {
    var f, g := (s: Subset) => SubsetPointers(k, ip, a, s), (s: Subset) => SubsetPointers(k, ip, b, s);
    forall i | 0 <= i < |a.subsets|
      ensures |f(a.subsets[i])| == |g(b.subsets[i])|
    {
      assert SameSubset(a.subsets[i], b.subsets[i]);
      SubsetPointersTell(k, ip, a, b, a.subsets[i], b.subsets[i]);
    }
    FlatMapPositional(f, g, a.subsets, b.subsets);
    if ReverseVisible(k, a.namespace) && EndpointsPointers(k, ip, a) == EndpointsPointers(k, ip, b) {
      forall i, j | 0 <= i < |a.subsets| && 0 <= j < |a.subsets[i].addresses| && a.subsets[i].addresses[j].ip == ip
        ensures SameSubset(a.subsets[i], b.subsets[i])
        ensures k.Hostname(a.subsets[i].addresses[j]) == k.Hostname(b.subsets[i].addresses[j])
      {
        assert SameSubset(a.subsets[i], b.subsets[i]);
        assert f(a.subsets[i]) == g(b.subsets[i]);
        SubsetPointersTell(k, ip, a, b, a.subsets[i], b.subsets[i]);
      }
    }
  }

  /** The snapshot with b in place of its Endpoints object i. */
  function Replaced(k: Kube, i: nat, b: Endpoints): Kube
    requires i < |k.endpoints|
  {
    k.(endpoints := k.endpoints[i := b])
  }

  lemma ReplacedConfig(k: Kube, i: nat, b: Endpoints, ip: string)
    requires i < |k.endpoints|
    ensures PointedServices(Replaced(k, i, b), ip) == PointedServices(k, ip)
    ensures forall ep :: EndpointsPointers(Replaced(k, i, b), ip, ep) == EndpointsPointers(k, ip, ep)
  {
    var m := Replaced(k, i, b);
    FilterCongruence((s: Service) => ReverseVisible(m, s.namespace), (s: Service) => ReverseVisible(k, s.namespace),
                     k.SvcIndexReverse(ip));
    forall ep: Endpoints
      ensures EndpointsPointers(m, ip, ep) == EndpointsPointers(k, ip, ep)
    {
      forall x | 0 <= x < |ep.subsets|
        ensures SubsetPointers(m, ip, ep, ep.subsets[x]) == SubsetPointers(k, ip, ep, ep.subsets[x])
      {
        FlatMapCongruence((addr: Address) => AddressPointers(m, ip, ep, addr),
                          (addr: Address) => AddressPointers(k, ip, ep, addr),
                          ep.subsets[x].addresses, ep.subsets[x].addresses);
      }
      FlatMapCongruence((s: Subset) => SubsetPointers(m, ip, ep, s), (s: Subset) => SubsetPointers(k, ip, ep, s),
                        ep.subsets, ep.subsets);
    }
  }

  /** In any snapshot where no service answers for the address, a label it is published under cannot
      change without changing the reverse lookup. */
  lemma PointersTell(k: Kube, i: nat, b: Endpoints, ip: string, x: nat, y: nat)
    requires i < |k.endpoints| && Alike(k.endpoints[i], b)
    requires k.endpoints[i].indexIP == AddressIPs(k.endpoints[i].subsets) && b.indexIP == AddressIPs(b.subsets)
    requires ReverseVisible(k, b.namespace) && PointedServices(k, ip) == []
    requires x < |b.subsets| && y < |b.subsets[x].addresses| && b.subsets[x].addresses[y].ip == ip
    requires Pointers(k, ip) == Pointers(Replaced(k, i, b), ip)
    ensures SameSubset(k.endpoints[i].subsets[x], b.subsets[x])
    ensures k.Hostname(k.endpoints[i].subsets[x].addresses[y]) == k.Hostname(b.subsets[x].addresses[y])
  {
    var a, m := k.endpoints[i], Replaced(k, i, b);
    assert SameSubset(a.subsets[x], b.subsets[x]);
    assert a.subsets[x].addresses[y] in a.subsets[x].addresses && b.subsets[x].addresses[y] in b.subsets[x].addresses;
    AddressIPsIff(a.subsets, ip);
    AddressIPsIff(b.subsets, ip);
    ReplacedConfig(k, i, b, ip);
    var listed := (e: Endpoints) => ip in e.indexIP;
    var z := FilterReplace(listed, k.endpoints, i, b);
    var s, t := k.EpIndexReverse(ip), m.EpIndexReverse(ip);
    assert s == Filter(listed, k.endpoints) && t == Filter(listed, m.endpoints) == s[z := b];
    ListsTell(k, ip, s, z, b);
    FlatMapCongruence((ep: Endpoints) => EndpointsPointers(m, ip, ep), (ep: Endpoints) => EndpointsPointers(k, ip, ep),
                      t, t);
    EndpointsPointersTell(k, ip, a, b);
  }

  lemma ListsTell(k: Kube, ip: string, s: seq<Endpoints>, z: nat, b: Endpoints)
    requires z < |s| && Alike(s[z], b)
    ensures var step := (ep: Endpoints) => EndpointsPointers(k, ip, ep);
            FlatMap(step, s) == FlatMap(step, s[z := b]) ==>
              EndpointsPointers(k, ip, s[z]) == EndpointsPointers(k, ip, b)
  {
    var step := (ep: Endpoints) => EndpointsPointers(k, ip, ep);
    EndpointsPointersTell(k, ip, s[z], b);
    FlatMapPositional(step, step, s, s[z := b]);
  }

  /** Where the object can be found: some snapshot, read with this address parser, with endpoints named
      after pods or not. */
  ghost predicate Listed(mode: bool, hostKind: string -> HostKind, k: Kube, i: nat, a: Endpoints) {
    k.endpointNameMode == mode && k.hostKind == hostKind && i < |k.endpoints| && k.endpoints[i] == a
  }

  function Bare(mode: bool, hostKind: string -> HostKind, a: Endpoints): Kube {
    Kube({}, mode, false, PodsDisabled, 0, [], hostKind, [], [a], [], [])
  }

  /** An update that is not noticed can be seen in no snapshot exactly when every address keeps the
      label it is published under. */
  lemma UnnoticedUnseenIff(mode: bool, hostKind: string -> HostKind, key: Key, a: Endpoints, b: Endpoints)
    requires Consistent(key, a) && Consistent(key, b) && SameEndpoints(a, b)
    ensures SameLabels(mode, a, b) <==>
            forall k, i :: Listed(mode, hostKind, k, i, a) ==> SameAnswers(k, Replaced(k, i, b))
  {
    if SameLabels(mode, a, b) {
      LabelsVisible(mode, key, a, b);
      forall k, i | Listed(mode, hostKind, k, i, a)
        ensures SameAnswers(k, Replaced(k, i, b))
      {
        assert VisibleList(mode, k.endpoints) == VisibleList(mode, Replaced(k, i, b).endpoints);
        VisibleDecides(k, Replaced(k, i, b));
      }
    } else {
      ChangedSeen(mode, hostKind, key, a, b);
      assert Listed(mode, hostKind, Bare(mode, hostKind, a), 0, a);
    }
  }

  lemma ChangedSeen(mode: bool, hostKind: string -> HostKind, key: Key, a: Endpoints, b: Endpoints)
    requires Consistent(key, a) && Consistent(key, b) && SameEndpoints(a, b) && !SameLabels(mode, a, b)
    ensures !SameAnswers(Bare(mode, hostKind, a), Replaced(Bare(mode, hostKind, a), 0, b))
  {
    var x, y :| && 0 <= x < |a.subsets| && 0 <= y < |a.subsets[x].addresses|
                && (assert SameSubset(a.subsets[x], b.subsets[x]);
                    HostLabel.EndpointHostname(a.subsets[x].addresses[y], mode)
                    != HostLabel.EndpointHostname(b.subsets[x].addresses[y], mode));
    var k, ip := Bare(mode, hostKind, a), a.subsets[x].addresses[y].ip;
    assert SameSubset(a.subsets[x], b.subsets[x]);
    if SameAnswers(k, Replaced(k, 0, b)) {
      PointersTell(k, 0, b, ip, x, y);
      assert false;
    }
  }

  // ---------------------------------------------------------------------------------------------
  // Whole runs
  // ---------------------------------------------------------------------------------------------

  /** A run that never moves the serial, and a listing of the snapshot before and after it. */
  ghost predicate StillRun(mode: bool, hostKind: string -> HostKind, truth: Truth, src: Sources<Service, Endpoints>,
                           c: Cache, events: seq<Event<Service, Endpoints>>, k: Kube, svcOrder: seq<Key>,
                           epOrder: seq<Key>) {
    && GenuineSources(truth, src) && GenuineCache(truth, c)
    && Run(src, c, events).modified == c.modified
    && k.endpointNameMode == mode && k.hostKind == hostKind
    && (forall key :: key in svcOrder ==> key in c.services)
    && (forall key :: key in epOrder ==> key in c.endpoints)
  }

  /** Such a run never changes which objects are cached. */
  lemma StillKeys(mode: bool, hostKind: string -> HostKind, truth: Truth, src: Sources<Service, Endpoints>, c: Cache,
                  events: seq<Event<Service, Endpoints>>, k: Kube, svcOrder: seq<Key>, epOrder: seq<Key>)
    requires StillRun(mode, hostKind, truth, src, c, events, k, svcOrder, epOrder)
    ensures Run(src, c, events).services == c.services && Run(src, c, events).endpoints.Keys == c.endpoints.Keys
  {
    KeepsWithoutPods(truth);
    QuietRun(false, truth, src, c, events);
  }

  /** No run that never moves the serial changes an answer. */
  ghost predicate Sound(mode: bool, hostKind: string -> HostKind, truth: Truth) {
    forall src, c, events, k, svcOrder, epOrder ::
      StillRun(mode, hostKind, truth, src, c, events, k, svcOrder, epOrder) ==>
        (StillKeys(mode, hostKind, truth, src, c, events, k, svcOrder, epOrder);
         SameAnswers(Snapshot(k, c, svcOrder, epOrder), Snapshot(k, Run(src, c, events), svcOrder, epOrder)))
  }

  /** A source that converts one object only. */
  function OnlyFrom(b: Endpoints): Sources<Service, Endpoints> {
    Sources(Source((s: Service) => Failed, (s: Service) => (s.namespace, s.name)),
      Source((e: Endpoints) => if e == b then Converted(e) else Failed, (e: Endpoints) => (e.namespace, e.name)))
  }

  function Holding(services: map<Key, Service>, key: Key, a: Endpoints): Cache {
    Cache(services, map[key := a], 0)
  }

  function Delivery(b: Endpoints): seq<Event<Service, Endpoints>> {
    [EndpointsEvent([Updated(b)])]
  }

  lemma OnlyFromGenuine(truth: Truth, key: Key, b: Endpoints)
    requires GenuineEndpoints(truth, key, b)
    ensures GenuineSources(truth, OnlyFrom(b))
  {
  }

  lemma DeliveryNotes(key: Key, a: Endpoints, b: Endpoints)
    requires key == (b.namespace, b.name)
    ensures var src, deltas := OnlyFrom(b).ep, [Updated(b)];
            && GoodPrefix(src, deltas) == 1 && Fold(src, map[key := a], deltas) == map[key := b]
            && Notes(src, map[key := a], deltas) == [OnUpdate(a, b)]
  {
    var src, deltas := OnlyFrom(b).ep, [Updated(b)];
    assert deltas[..0] == [] && deltas[1..] == [];
    assert GoodPrefix(src, deltas) == 1 + GoodPrefix(src, deltas[1..]);
    assert Apply(src, map[key := a], deltas[0]) == map[key := b];
    assert Fold(src, map[key := a], deltas) == Apply(src, Fold(src, map[key := a], deltas[..0]), deltas[0]);
    assert Note(src, map[key := a], deltas[0]) == [OnUpdate(a, b)];
    assert Notes(src, map[key := a], deltas) == [] + [OnUpdate(a, b)];
  }

  /** Delivering an update that is not noticed replaces the object and does not move the serial. */
  lemma ReplacementRun(services: map<Key, Service>, key: Key, a: Endpoints, b: Endpoints)
    requires key == (b.namespace, b.name) && SameEndpoints(a, b)
    ensures Run(OnlyFrom(b), Holding(services, key, a), Delivery(b)) == Holding(services, key, b)
  {
    var src, c, deltas := OnlyFrom(b), Holding(services, key, a), [Updated(b)];
    DeliveryNotes(key, a, b);
    assert deltas[..1] == deltas;
    var notes: seq<Notification<Endpoints>> := [OnUpdate(a, b)];
    BumpsAppend([], notes, EndpointsOf);
    assert Bumps(notes, EndpointsOf) == 0;
    assert Step(src, c, Delivery(b)[0]) == Holding(services, key, b);
    assert Delivery(b)[1..] == [];
    assert Run(src, Holding(services, key, b), []) == Holding(services, key, b);
  }

  lemma HoldingSnapshot(k: Kube, key: Key, e: Endpoints)
    ensures Snapshot(k, Holding(map[], key, e), [], [key]) == k.(services := [], endpoints := [e])
  {
    assert Listing(map[key := e], [key]) == [e];
  }

  /** The serial is sound for all runs exactly when no object changes a published label unnoticed:
      always when endpoints are not named after pods. */
  lemma SerialSoundIff(mode: bool, hostKind: string -> HostKind, truth: Truth)
    ensures Sound(mode, hostKind, truth) <==> KeepsLabels(mode, truth)
    ensures Sound(false, hostKind, truth)
  {
    KeepsWithoutPods(truth);
    forall m: bool | KeepsLabels(m, truth)
      ensures Sound(m, hostKind, truth)
    {
      forall src, c, events, k, svcOrder, epOrder | StillRun(m, hostKind, truth, src, c, events, k, svcOrder, epOrder)
        ensures Run(src, c, events).services == c.services && Run(src, c, events).endpoints.Keys == c.endpoints.Keys
        ensures SameAnswers(Snapshot(k, c, svcOrder, epOrder), Snapshot(k, Run(src, c, events), svcOrder, epOrder))
      {
        StillKeys(m, hostKind, truth, src, c, events, k, svcOrder, epOrder);
        SerialSound(truth, src, c, events, k, svcOrder, epOrder);
      }
    }
    if !KeepsLabels(mode, truth) {
      var key, v, w :|
        && GenuineEndpoints(truth, key, truth.ep(key, v)) && GenuineEndpoints(truth, key, truth.ep(key, w))
        && SameEndpoints(truth.ep(key, v), truth.ep(key, w))
        && !SameLabels(mode, truth.ep(key, v), truth.ep(key, w));
      UnsoundRun(mode, hostKind, truth, key, truth.ep(key, v), truth.ep(key, w));
    }
  }

  lemma UnsoundRun(mode: bool, hostKind: string -> HostKind, truth: Truth, key: Key, a: Endpoints, b: Endpoints)
    requires GenuineEndpoints(truth, key, a) && GenuineEndpoints(truth, key, b)
    requires SameEndpoints(a, b) && !SameLabels(mode, a, b)
    ensures !Sound(mode, hostKind, truth)
  {
    ReplacementRun(map[], key, a, b);
    ChangedSeen(mode, hostKind, key, a, b);
    OnlyFromGenuine(truth, key, b);
    var src, c, k := OnlyFrom(b), Holding(map[], key, a), Bare(mode, hostKind, a);
    assert GenuineCache(truth, c);
    assert StillRun(mode, hostKind, truth, src, c, Delivery(b), k, [], [key]);
    HoldingSnapshot(k, key, a);
    HoldingSnapshot(k, key, b);
    assert Replaced(k, 0, b).endpoints == [b];
  }
}
