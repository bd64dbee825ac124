/** When the zone serial moves: the controller's handlers, and runs of them over the caches. */
module Serial {
  import opened Objects
  import opened HostLabel
  import opened Backend
  import opened Informer
  import opened Views

  datatype Cached = ServiceObject(svc: Service) | PodObject(pod: Pod) | EndpointsObject(ep: Endpoints)
  {
    function ResourceVersion(): string {
      match this
      case ServiceObject(s) => s.version
      case PodObject(p) => p.version
      case EndpointsObject(e) => e.version
    }
  }

  /** The same ready addresses with the same host names, and the same ports. */
  predicate SameSubset(sa: Subset, sb: Subset) {
    && |sa.addresses| == |sb.addresses|
    && (forall i :: 0 <= i < |sa.addresses| ==>
          sa.addresses[i].ip == sb.addresses[i].ip && sa.addresses[i].hostname == sb.addresses[i].hostname)
    && sa.ports == sb.ports
  }

  predicate SameEndpoints(a: Endpoints, b: Endpoints) {
    |a.subsets| == |b.subsets| && forall i :: 0 <= i < |a.subsets| ==> SameSubset(a.subsets[i], b.subsets[i])
  }

  method SubsetsEquivalent(sa: Subset, sb: Subset) returns (eq: bool)
    ensures eq <==> SameSubset(sa, sb)
  {
    if |sa.addresses| != |sb.addresses| {
      return false;
    }
    if |sa.ports| != |sb.ports| {
      return false;
    }
    for i := 0 to |sa.addresses|
      invariant forall j :: 0 <= j < i ==>
        sa.addresses[j].ip == sb.addresses[j].ip && sa.addresses[j].hostname == sb.addresses[j].hostname
    {
      var aaddr, baddr := sa.addresses[i], sb.addresses[i];
      if aaddr.ip != baddr.ip {
        return false;
      }
      if aaddr.hostname != baddr.hostname {
        return false;
      }
    }
    for i := 0 to |sa.ports|
      invariant forall j :: 0 <= j < i ==> sa.ports[j] == sb.ports[j]
    {
      var aport, bport := sa.ports[i], sb.ports[i];
      if aport.name != bport.name {
        return false;
      }
      if aport.port != bport.port {
        return false;
      }
      if aport.protocol != bport.protocol {
        return false;
      }
    }
    return true;
  }

  method EndpointsEquivalent(a: Endpoints, b: Endpoints) returns (eq: bool)
    ensures eq <==> SameEndpoints(a, b)
  {
    if |a.subsets| != |b.subsets| {
      return false;
    }
    for i := 0 to |a.subsets|
      invariant forall j :: 0 <= j < i ==> SameSubset(a.subsets[j], b.subsets[j])
    {
      var same := SubsetsEquivalent(a.subsets[i], b.subsets[i]);
      if !same {
        return false;
      }
    }
    return true;
  }

  /** The update moves the serial. */
  predicate Noticed(before: Cached, after: Cached) {
    && before.ResourceVersion() != after.ResourceVersion()
    && !(before.EndpointsObject? && after.EndpointsObject? && SameEndpoints(before.ep, after.ep))
  }

  /** The notification moves the serial: every addition and deletion does. */
  predicate Moves<Obj>(note: Notification<Obj>, wrap: Obj -> Cached) {
    match note
    case OnAdd(_) => true
    case OnUpdate(before, obj) => Noticed(wrap(before), wrap(obj))
    case OnDelete(_) => true
  }

  /** How often a list of notifications moves the serial. */
  function Bumps<Obj>(notes: seq<Notification<Obj>>, wrap: Obj -> Cached): nat {
    if notes == [] then 0
    else
      var n := |notes| - 1;
      Bumps(notes[..n], wrap) + if Moves(notes[n], wrap) then 1 else 0
  }

  /** The controller's modification stamp, counted rather than timed. */
  class DnsControl {
    var modified: nat

    constructor ()
      ensures modified == 0
    {
      modified := 0;
    }

    method UpdateModified()
      modifies this
      ensures modified == old(modified) + 1
    {
      modified := modified + 1;
    }

    method Add(obj: Cached)
      modifies this
      ensures modified == old(modified) + 1
    {
      UpdateModified();
    }

    method Delete(key: Key)
      modifies this
      ensures modified == old(modified) + 1
    {
      UpdateModified();
    }

    method Update(oldObj: Cached, newObj: Cached)
      requires oldObj.EndpointsObject? == newObj.EndpointsObject?
      modifies this
      ensures modified == old(modified) + if Noticed(oldObj, newObj) then 1 else 0
    {
      if oldObj.ResourceVersion() == newObj.ResourceVersion() {
        return;
      }
      match newObj {
        case ServiceObject(_) => UpdateModified();
        case PodObject(_) => UpdateModified();
        case EndpointsObject(_) =>
          var equivalent := EndpointsEquivalent(oldObj.ep, newObj.ep);
          if !equivalent {
            UpdateModified();
          }
      }
    }

    /** Passes notifications on to the handlers above, in order. */
    method Handle<Obj(!new)>(notes: seq<Notification<Obj>>, wrap: Obj -> Cached)
      requires forall x, y :: wrap(x).EndpointsObject? == wrap(y).EndpointsObject?
      modifies this
      ensures modified == old(modified) + Bumps(notes, wrap)
    {
      for i := 0 to |notes|
        invariant modified == old(modified) + Bumps(notes[..i], wrap)
      {
        assert notes[..i + 1][..i] == notes[..i];
        match notes[i] {
          case OnAdd(obj) => Add(wrap(obj));
          case OnUpdate(before, obj) => Update(wrap(before), wrap(obj));
          case OnDelete(key) => Delete(key);
        }
      }
      assert notes[..|notes|] == notes;
    }
  }

  function ServiceOf(s: Service): Cached { ServiceObject(s) }

  function EndpointsOf(e: Endpoints): Cached { EndpointsObject(e) }

  /** One delivery from the service informer: the store is updated and the handlers run. */
  method DeliverServices<R>(p: Processor<R, Service>, control: DnsControl, deltas: seq<Delta<R>>) returns (ok: bool)
    modifies p, control
    ensures var good := deltas[..GoodPrefix(p.src, deltas)];
            && p.clientState == Fold(p.src, old(p.clientState), good)
            && control.modified == old(control.modified) + Bumps(Notes(p.src, old(p.clientState), good), ServiceOf)
  {
    var heard := |p.log|;
    ok := p.Process(deltas);
    control.Handle(p.log[heard..], ServiceOf);
  }

  method DeliverEndpoints<R>(p: Processor<R, Endpoints>, control: DnsControl, deltas: seq<Delta<R>>) returns (ok: bool)
    modifies p, control
    ensures var good := deltas[..GoodPrefix(p.src, deltas)];
            && p.clientState == Fold(p.src, old(p.clientState), good)
            && control.modified == old(control.modified) + Bumps(Notes(p.src, old(p.clientState), good), EndpointsOf)
  {
    var heard := |p.log|;
    ok := p.Process(deltas);
    control.Handle(p.log[heard..], EndpointsOf);
  }

  // ---------------------------------------------------------------------------------------------
  // Runs
  // ---------------------------------------------------------------------------------------------

  datatype Cache = Cache(services: map<Key, Service>, endpoints: map<Key, Endpoints>, modified: nat)

  datatype Event<R, T> = ServiceEvent(svcDeltas: seq<Delta<R>>) | EndpointsEvent(epDeltas: seq<Delta<T>>)

  datatype Sources<!R, !T> = Sources(svc: Source<R, Service>, ep: Source<T, Endpoints>)

  function Step<R, T>(src: Sources<R, T>, c: Cache, e: Event<R, T>): Cache {
    match e
    case ServiceEvent(deltas) =>
      var good := deltas[..GoodPrefix(src.svc, deltas)];
      c.(services := Fold(src.svc, c.services, good),
         modified := c.modified + Bumps(Notes(src.svc, c.services, good), ServiceOf))
    case EndpointsEvent(deltas) =>
      var good := deltas[..GoodPrefix(src.ep, deltas)];
      c.(endpoints := Fold(src.ep, c.endpoints, good),
         modified := c.modified + Bumps(Notes(src.ep, c.endpoints, good), EndpointsOf))
  }

  function Run<R, T>(src: Sources<R, T>, c: Cache, events: seq<Event<R, T>>): Cache
    decreases |events|
  {
    if events == [] then c else Run(src, Step(src, c, events[0]), events[1..])
  }

  /** What each resource version of each object looks like. Equal versions mean equal objects. */
  datatype Truth = Truth(svc: (Key, string) -> Service, ep: (Key, string) -> Endpoints)

  predicate GenuineService(truth: Truth, key: Key, s: Service) {
    s == truth.svc(key, s.version)
  }

  /** The key and the indices of a converted Endpoints object follow from its name and addresses. */
  predicate Consistent(key: Key, e: Endpoints) {
    key == (e.namespace, e.name) && e.index == NameKey(e.name, e.namespace) && e.indexIP == AddressIPs(e.subsets)
  }

  predicate GenuineEndpoints(truth: Truth, key: Key, e: Endpoints) {
    e == truth.ep(key, e.version) && Consistent(key, e)
  }

  ghost predicate GenuineSources<R(!new), T(!new)>(truth: Truth, src: Sources<R, T>) {
    && (forall raw :: src.svc.convert(raw).Converted? ==>
          var s := src.svc.convert(raw).obj; GenuineService(truth, src.svc.keyOf(s), s))
    && (forall raw :: src.ep.convert(raw).Converted? ==>
          var e := src.ep.convert(raw).obj; GenuineEndpoints(truth, src.ep.keyOf(e), e))
  }

  ghost predicate GenuineCache(truth: Truth, c: Cache) {
    && (forall key :: key in c.services ==> GenuineService(truth, key, c.services[key]))
    && (forall key :: key in c.endpoints ==> GenuineEndpoints(truth, key, c.endpoints[key]))
  }

  /** The same services, and endpoints that look the same. */
  ghost predicate SameView(mode: bool, c: Cache, d: Cache) {
    && c.services == d.services
    && c.endpoints.Keys == d.endpoints.Keys
    && forall key :: key in c.endpoints ==>
       VisibleEndpoints(mode, c.endpoints[key]) == VisibleEndpoints(mode, d.endpoints[key])
  }

  lemma BumpsSnoc<Obj>(notes: seq<Notification<Obj>>, note: Notification<Obj>, wrap: Obj -> Cached)
    ensures Bumps(notes + [note], wrap) == Bumps(notes, wrap) + if Moves(note, wrap) then 1 else 0
  {
    assert (notes + [note])[..|notes|] == notes;
  }

  lemma BumpsAppend<Obj>(notes: seq<Notification<Obj>>, more: seq<Notification<Obj>>, wrap: Obj -> Cached)
    requires |more| <= 1
    ensures Bumps(notes + more, wrap) == Bumps(notes, wrap) + Bumps(more, wrap)
    ensures |more| == 1 ==> Bumps(more, wrap) == if Moves(more[0], wrap) then 1 else 0
  {
    if more == [] {
      assert notes + more == notes;
    } else {
      assert more == [more[0]] && more[..0] == [];
      BumpsSnoc(notes, more[0], wrap);
    }
  }

  /** Service deltas that do not move the serial leave the services as they were. */
  lemma {:induction false} QuietServices<R(!new)>(truth: Truth, src: Source<R, Service>, store: map<Key, Service>,
                                           deltas: seq<Delta<R>>)
    requires AllGood(src, deltas)
    requires forall raw :: src.convert(raw).Converted? ==>
               var s := src.convert(raw).obj; GenuineService(truth, src.keyOf(s), s)
    requires forall key :: key in store ==> GenuineService(truth, key, store[key])
    requires Bumps(Notes(src, store, deltas), ServiceOf) == 0
    ensures Fold(src, store, deltas) == store
  {
    if deltas != [] {
      var n := |deltas| - 1;
      BumpsAppend(Notes(src, store, deltas[..n]), Note(src, Fold(src, store, deltas[..n]), deltas[n]), ServiceOf);
      QuietServices(truth, src, store, deltas[..n]);
    }
  }

  /** Every address keeps the label it is published under. */
  predicate SameLabels(mode: bool, a: Endpoints, b: Endpoints)
    requires SameEndpoints(a, b)
  {
    forall i, j :: 0 <= i < |a.subsets| && 0 <= j < |a.subsets[i].addresses| ==>
      (assert SameSubset(a.subsets[i], b.subsets[i]);
       EndpointHostname(a.subsets[i].addresses[j], mode) == EndpointHostname(b.subsets[i].addresses[j], mode))
  }

  /** Labels that do not come from pods are kept by every update that is not noticed. */
  lemma LabelsWithoutPods(a: Endpoints, b: Endpoints)
    requires SameEndpoints(a, b)
    ensures SameLabels(false, a, b)
  {
    forall i, j | 0 <= i < |a.subsets| && 0 <= j < |a.subsets[i].addresses|
      ensures SameSubset(a.subsets[i], b.subsets[i])
      ensures EndpointHostname(a.subsets[i].addresses[j], false) == EndpointHostname(b.subsets[i].addresses[j], false)
    {
      assert SameSubset(a.subsets[i], b.subsets[i]);
    }
  }

  /** Objects with the same addresses, ports and labels have the same visible part. */
  lemma LabelsVisible(mode: bool, key: Key, a: Endpoints, b: Endpoints)
    requires Consistent(key, a) && Consistent(key, b) && SameEndpoints(a, b) && SameLabels(mode, a, b)
    ensures VisibleEndpoints(mode, a) == VisibleEndpoints(mode, b)
  {
    var va, vb := VisibleSubsets(mode, a.subsets), VisibleSubsets(mode, b.subsets);
    AddressIPsVisible(mode, a.subsets);
    AddressIPsVisible(mode, b.subsets);
    forall i | 0 <= i < |a.subsets|
      ensures va[i] == vb[i]
    {
      assert SameSubset(a.subsets[i], b.subsets[i]);
      assert va[i].addresses == vb[i].addresses;
    }
    assert va == vb;
  }

  /** Over its whole history, no object changes a published label unnoticed. */
  ghost predicate KeepsLabels(mode: bool, truth: Truth) {
    forall key, v, w ::
      && GenuineEndpoints(truth, key, truth.ep(key, v)) && GenuineEndpoints(truth, key, truth.ep(key, w))
      && SameEndpoints(truth.ep(key, v), truth.ep(key, w))
      ==> SameLabels(mode, truth.ep(key, v), truth.ep(key, w))
  }

  lemma KeepsWithoutPods(truth: Truth)
    ensures KeepsLabels(false, truth)
  {
    forall key, v, w | SameEndpoints(truth.ep(key, v), truth.ep(key, w))
      ensures SameLabels(false, truth.ep(key, v), truth.ep(key, w))
    {
      LabelsWithoutPods(truth.ep(key, v), truth.ep(key, w));
    }
  }

  ghost predicate LooksSame(mode: bool, store: map<Key, Endpoints>, after: map<Key, Endpoints>) {
    && store.Keys == after.Keys
    && forall key :: key in store ==> VisibleEndpoints(mode, store[key]) == VisibleEndpoints(mode, after[key])
  }

  ghost predicate GenuineStore(truth: Truth, store: map<Key, Endpoints>) {
    forall key :: key in store ==> GenuineEndpoints(truth, key, store[key])
  }

  lemma QuietDelta<R(!new)>(mode: bool, truth: Truth, src: Source<R, Endpoints>, store: map<Key, Endpoints>,
                            d: Delta<R>)
    requires !src.Fails(d) && GenuineStore(truth, store) && KeepsLabels(mode, truth)
    requires src.Upserts(d) ==> var e := src.convert(d.raw).obj; GenuineEndpoints(truth, src.keyOf(e), e)
    requires |Note(src, store, d)| == 1 ==> !Moves(Note(src, store, d)[0], EndpointsOf)
    ensures LooksSame(mode, store, Apply(src, store, d)) && GenuineStore(truth, Apply(src, store, d))
  {
    if src.Upserts(d) {
      var e := src.convert(d.raw).obj;
      var key := src.keyOf(e);
      assert |Note(src, store, d)| == 1;
      assert key in store;
      if e.version != store[key].version {
        assert SameEndpoints(truth.ep(key, store[key].version), truth.ep(key, e.version));
        LabelsVisible(mode, key, store[key], e);
      }
    }
  }

  lemma {:induction false} QuietEndpoints<R(!new)>(mode: bool, truth: Truth, src: Source<R, Endpoints>,
                                            store: map<Key, Endpoints>, deltas: seq<Delta<R>>)
    requires AllGood(src, deltas) && GenuineStore(truth, store) && KeepsLabels(mode, truth)
    requires forall raw :: src.convert(raw).Converted? ==>
               var e := src.convert(raw).obj; GenuineEndpoints(truth, src.keyOf(e), e)
    requires Bumps(Notes(src, store, deltas), EndpointsOf) == 0
    ensures LooksSame(mode, store, Fold(src, store, deltas)) && GenuineStore(truth, Fold(src, store, deltas))
  {
    if deltas != [] {
      var n := |deltas| - 1;
      BumpsAppend(Notes(src, store, deltas[..n]), Note(src, Fold(src, store, deltas[..n]), deltas[n]), EndpointsOf);
      QuietEndpoints(mode, truth, src, store, deltas[..n]);
      QuietDelta(mode, truth, src, Fold(src, store, deltas[..n]), deltas[n]);
    }
  }

  lemma QuietStep<R(!new), T(!new)>(mode: bool, truth: Truth, src: Sources<R, T>, c: Cache, e: Event<R, T>)
    requires GenuineSources(truth, src) && GenuineCache(truth, c) && KeepsLabels(mode, truth)
    requires Step(src, c, e).modified == c.modified
    ensures SameView(mode, c, Step(src, c, e)) && GenuineCache(truth, Step(src, c, e))
  {
    match e
    case ServiceEvent(deltas) => QuietServices(truth, src.svc, c.services, deltas[..GoodPrefix(src.svc, deltas)]);
    case EndpointsEvent(deltas) => QuietEndpoints(mode, truth, src.ep, c.endpoints, deltas[..GoodPrefix(src.ep,
      deltas)]);
  }

  lemma {:induction false} RunMonotone<R, T>(src: Sources<R, T>, c: Cache, events: seq<Event<R, T>>)
    ensures c.modified <= Run(src, c, events).modified
    decreases |events|
  {
    if events != [] {
      RunMonotone(src, Step(src, c, events[0]), events[1..]);
    }
  }

  lemma SameViewTransitive(mode: bool, c: Cache, d: Cache, e: Cache)
    requires SameView(mode, c, d) && SameView(mode, d, e)
    ensures SameView(mode, c, e)
  {
  }

  lemma {:induction false} QuietRun<R(!new), T(!new)>(mode: bool, truth: Truth, src: Sources<R, T>, c: Cache,
                                      events: seq<Event<R, T>>)
    requires GenuineSources(truth, src) && GenuineCache(truth, c) && KeepsLabels(mode, truth)
    requires Run(src, c, events).modified == c.modified
    ensures SameView(mode, c, Run(src, c, events))
    decreases |events|
  {
    if events != [] {
      var d := Step(src, c, events[0]);
      RunMonotone(src, d, events[1..]);
      QuietStep(mode, truth, src, c, events[0]);
      QuietRun(mode, truth, src, d, events[1..]);
      SameViewTransitive(mode, c, d, Run(src, d, events[1..]));
    }
  }

  /** The snapshot a cache presents, listing its objects in some order. */
  function Listing<V>(m: map<Key, V>, order: seq<Key>): seq<V>
    requires forall key :: key in order ==> key in m
  {
    seq(|order|, i requires 0 <= i < |order| => assert order[i] in order; m[order[i]])
  }

  function Snapshot(k: Kube, c: Cache, svcOrder: seq<Key>, epOrder: seq<Key>): Kube
    requires forall key :: key in svcOrder ==> key in c.services
    requires forall key :: key in epOrder ==> key in c.endpoints
  {
    k.(services := Listing(c.services, svcOrder), endpoints := Listing(c.endpoints, epOrder))
  }

  /** If a run never moves the serial, no query, transfer or reverse lookup can tell its end from its
      start (RFC 1034, section 4.3.5), provided that no object changes a published label unnoticed. */
  lemma SerialSound<R(!new), T(!new)>(truth: Truth, src: Sources<R, T>, c: Cache, events: seq<Event<R, T>>,
                                      k: Kube, svcOrder: seq<Key>, epOrder: seq<Key>)
    requires GenuineSources(truth, src) && GenuineCache(truth, c)
    requires KeepsLabels(k.endpointNameMode, truth)
    requires Run(src, c, events).modified == c.modified
    requires forall key :: key in svcOrder ==> key in c.services
    requires forall key :: key in epOrder ==> key in c.endpoints
    ensures SameView(k.endpointNameMode, c, Run(src, c, events))
    ensures SameAnswers(Snapshot(k, c, svcOrder, epOrder), Snapshot(k, Run(src, c, events), svcOrder, epOrder))
  {
    var mode := k.endpointNameMode;
    QuietRun(mode, truth, src, c, events);
    var before, after := Snapshot(k, c, svcOrder, epOrder), Snapshot(k, Run(src, c, events), svcOrder, epOrder);
    assert before.services == after.services;
    assert VisibleList(mode, before.endpoints) == VisibleList(mode, after.endpoints);
    VisibleDecides(before, after);
  }
}
