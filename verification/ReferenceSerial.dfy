/** When the serial moves, told from the objects delivered and cached alone. */
module ReferenceSerial {
  import opened Objects
  import opened Informer
  import opened Serial

  /** What of an Endpoints object the change detector looks at: subset by subset, the IPs and host names
      of its addresses, and its ports. */
  function Shape(e: Endpoints): seq<(seq<(string, string)>, seq<Port>)> {
    seq(|e.subsets|, i requires 0 <= i < |e.subsets| => (AddressShape(e.subsets[i].addresses), e.subsets[i].ports))
  }

  function AddressShape(addresses: seq<Address>): seq<(string, string)> {
    seq(|addresses|, j requires 0 <= j < |addresses| => (addresses[j].ip, addresses[j].hostname))
  }

  lemma AddressShapeIff(a: seq<Address>, b: seq<Address>)
    ensures AddressShape(a) == AddressShape(b) <==>
            |a| == |b| && forall i :: 0 <= i < |a| ==> a[i].ip == b[i].ip && a[i].hostname == b[i].hostname
  {
    if AddressShape(a) == AddressShape(b) {
      assert |a| == |AddressShape(a)| == |AddressShape(b)| == |b|;
      forall i | 0 <= i < |a|
        ensures a[i].ip == b[i].ip && a[i].hostname == b[i].hostname
      {
        assert AddressShape(a)[i] == AddressShape(b)[i];
      }
    }
  }

  lemma ShapeIff(a: Endpoints, b: Endpoints)
    ensures SameEndpoints(a, b) <==> Shape(a) == Shape(b)
  {
    if Shape(a) == Shape(b) {
      assert |a.subsets| == |Shape(a)| == |Shape(b)| == |b.subsets|;
      forall i | 0 <= i < |a.subsets|
        ensures SameSubset(a.subsets[i], b.subsets[i])
      {
        assert Shape(a)[i] == Shape(b)[i];
        AddressShapeIff(a.subsets[i].addresses, b.subsets[i].addresses);
      }
    }
    if SameEndpoints(a, b) {
      forall i | 0 <= i < |a.subsets|
        ensures Shape(a)[i] == Shape(b)[i]
      {
        assert SameSubset(a.subsets[i], b.subsets[i]);
        AddressShapeIff(a.subsets[i].addresses, b.subsets[i].addresses);
      }
    }
  }

  /** An update is noticed exactly when the version differs and, for endpoints, the shape too. */
  lemma NoticedAccount(before: Endpoints, after: Endpoints, was: Service, became: Service)
    ensures Noticed(EndpointsObject(before), EndpointsObject(after)) <==>
            before.version != after.version && Shape(before) != Shape(after)
    ensures Noticed(ServiceObject(was), ServiceObject(became)) <==> was.version != became.version
  {
    ShapeIff(before, after);
  }

  /** The notes of a single delta. */
  lemma OneDelta<R, Obj>(src: Source<R, Obj>, store: map<Key, Obj>, d: Delta<R>)
    ensures var good := [d][..GoodPrefix(src, [d])];
            && AllGood(src, good) && !src.Fails(d) == !Stops(src, d)
            && Notes(src, store, good) == if Stops(src, d) then [] else Note(src, store, d)
  {
    StopsAtFirst(src, [d], if Stops(src, d) then 0 else 1);
    assert [d][..1] == [d] && [d][..0] == [];
    if !Stops(src, d) {
      assert Notes(src, store, [d]) == [] + Note(src, store, d);
    }
  }

  lemma OneNote<Obj>(note: Notification<Obj>, wrap: Obj -> Cached)
    ensures Bumps([note], wrap) == if Moves(note, wrap) then 1 else 0
  {
    assert [note][..0] == [];
  }

  /** How often a single delta moves the serial. */
  function DeltaMoves<R, Obj>(src: Source<R, Obj>, store: map<Key, Obj>, d: Delta<R>, wrap: Obj -> Cached): nat {
    if Stops(src, d) || d.OtherDelta? then 0
    else if d.Deleted? || d.DeletedUnknown? then 1
    else
      var obj := src.convert(d.raw).obj;
      if src.keyOf(obj) in store && !Noticed(wrap(store[src.keyOf(obj)]), wrap(obj)) then 0 else 1
  }

  lemma DeltaMovesIs<R, Obj>(src: Source<R, Obj>, store: map<Key, Obj>, d: Delta<R>, wrap: Obj -> Cached)
    ensures Bumps(Notes(src, store, [d][..GoodPrefix(src, [d])]), wrap) == DeltaMoves(src, store, d, wrap)
  {
    OneDelta(src, store, d);
    if !Stops(src, d) {
      NoteMoves(src, store, d, wrap);
    }
  }

  lemma NoteMoves<R, Obj>(src: Source<R, Obj>, store: map<Key, Obj>, d: Delta<R>, wrap: Obj -> Cached)
    requires !src.Fails(d) && !Stops(src, d)
    ensures Bumps(Note(src, store, d), wrap) == DeltaMoves(src, store, d, wrap)
  {
    if d.Deleted? || d.DeletedUnknown? {
      OneNote<Obj>(OnDelete(src.DeletedKey(d)), wrap);
    } else if !d.OtherDelta? {
      var obj := src.convert(d.raw).obj;
      var key := src.keyOf(obj);
      OneNote(if key in store then OnUpdate(store[key], obj) else OnAdd(obj), wrap);
    }
  }

  /** How often one delta about endpoints moves the serial: an addition or a deletion once; an update
      once if its version and its shape are new; what cannot be processed, never. */
  lemma EndpointsDeltaMoves<R(!new), T(!new)>(src: Sources<R, T>, c: Cache, d: Delta<T>)
    ensures Step(src, c, EndpointsEvent([d])).modified == c.modified +
              if Stops(src.ep, d) || d.OtherDelta? then 0
              else if d.Deleted? || d.DeletedUnknown? then 1
              else
                var e := src.ep.convert(d.raw).obj;
                var key := src.ep.keyOf(e);
                if key in c.endpoints && (c.endpoints[key].version == e.version || Shape(c.endpoints[key]) == Shape(e))
                then 0 else 1
  {
    DeltaMovesIs(src.ep, c.endpoints, d, EndpointsOf);
    if !Stops(src.ep, d) && (d.Sync? || d.Added? || d.Updated?) {
      var e := src.ep.convert(d.raw).obj;
      if src.ep.keyOf(e) in c.endpoints {
        ShapeIff(c.endpoints[src.ep.keyOf(e)], e);
      }
    }
  }

  /** The same for services, of which every update with a new version counts. */
  lemma ServiceDeltaMoves<R(!new), T(!new)>(src: Sources<R, T>, c: Cache, d: Delta<R>)
    ensures Step(src, c, ServiceEvent([d])).modified == c.modified +
              if Stops(src.svc, d) || d.OtherDelta? then 0
              else if d.Deleted? || d.DeletedUnknown? then 1
              else
                var s := src.svc.convert(d.raw).obj;
                var key := src.svc.keyOf(s);
                if key in c.services && c.services[key].version == s.version then 0 else 1
  {
    DeltaMovesIs(src.svc, c.services, d, ServiceOf);
  }
}
