/** The fault registry as it runs: objects and maps updated in place, tied to the state machine. */
module ChaosRegistry {
  import opened Objects
  import opened Registry
  import opened RegistryRuns

  class PodInfo {
    var namespace: string
    var name: string
    var action: string
    var scope: string
    var selector: Option<Selector>
    var ip: string
    var lastUpdateTime: int

    constructor (d: PodData)
      ensures Data() == d
    {
      namespace, name, action, scope := d.namespace, d.name, d.action, d.scope;
      selector, ip, lastUpdateTime := d.selector, d.ip, d.lastUpdate;
    }

    ghost function Data(): PodData
      reads this
    {
      PodData(namespace, name, action, scope, selector, ip, lastUpdateTime)
    }

    method IsOverdue(now: int) returns (overdue: bool)
      ensures overdue == Data().IsOverdue(now)
      ensures overdue <==> now > lastUpdateTime + 10
    {
      if now - lastUpdateTime > 10 {
        return true;
      }
      return false;
    }
  }

  /** Calls that agree on everything but identities not used yet do the same so far. */
  lemma {:induction false} SetPrefixAgrees<Id>(s: State<Id>, call: SetCall<Id>, other: SetCall<Id>, n: nat)
    requires call.Shaped() && other.Shaped() && n <= |call.ids| && n <= |other.ids|
    requires other == call.(ids := other.ids) && call.ids[..n] == other.ids[..n]
    ensures SetPrefix(s, call, n) == SetPrefix(s, other, n)
  {
    if n > 0 {
      assert call.ids[..n - 1] == call.ids[..n][..n - 1] == other.ids[..n][..n - 1] == other.ids[..n - 1];
      assert call.ids[n - 1] == call.ids[..n][n - 1] == other.ids[n - 1];
      SetPrefixAgrees(s, call, other, n - 1);
    }
  }

  lemma FreshExtends<Id>(s: State<Id>, call: SetCall<Id>, id: Id)
    requires call.Shaped() && Fresh(s, call) && |call.ids| < call.Reached() && id !in s.info && id !in call.ids
    ensures var next := call.(ids := call.ids + [id]);
            next.Shaped() && Fresh(s, next) && next.Reached() == call.Reached()
  {
  }

  lemma SetPrefixRegisters<Id>(s: State<Id>, call: SetCall<Id>, n: nat, t: State<Id>)
    requires call.Shaped() && n < |call.ids| && Closed(t) && t == SetPrefix(s, call, n)
    ensures SetPrefix(s, call, n + 1) == Register(t, call.ids[n], call.Data(n))
  {
  }

  /** One more identity takes a call one pod further. */
  lemma SetPrefixExtends<Id>(s: State<Id>, call: SetCall<Id>, t: State<Id>, id: Id)
    requires call.Shaped() && Fresh(s, call) && Closed(t) && t == SetPrefix(s, call, |call.ids|)
    requires |call.ids| < call.Reached() && id !in s.info && id !in call.ids
    ensures var n, next := |call.ids|, call.(ids := call.ids + [id]);
            && next.Shaped() && Fresh(s, next)
            && SetPrefix(s, next, n + 1) == Register(t, id, next.Data(n)) && Closed(SetPrefix(s, next, n + 1))
  {
    var n, next := |call.ids|, call.(ids := call.ids + [id]);
    FreshExtends(s, call, id);
    assert call.ids[..n] == next.ids[..n];
    SetPrefixAgrees(s, call, next, n);
    RegisterClosed(t, id, next.Data(n));
    SetPrefixRegisters(s, next, n, t);
  }

  function Reported(cluster: PodRef -> Option<string>): PodRef -> string {
    pod => if cluster(pod).Some? then cluster(pod).value else ""
  }

  /** Seeding leaves the names on record alone. */
  lemma {:induction false} SeedPrefixKeysKept<Id>(s: State<Id>, order: seq<PodRef>, ips: PodRef -> string, now: int,
                                                  n: nat)
    requires VisitOrder(s, order) && n <= |order|
    ensures forall id :: id in s.info ==>
              PodOf(SeedPrefix(s, order, ips, now, n).info[id]) == PodOf(s.info[id])
  {
    if n > 0 {
      SeedPrefixKeysKept(s, order, ips, now, n - 1);
    }
  }

  lemma {:induction false} SeedPrefixAgrees<Id>(s: State<Id>, order: seq<PodRef>, more: seq<PodRef>,
                                                ips: PodRef -> string, now: int, n: nat)
    requires VisitOrder(s, order) && VisitOrder(s, more) && n <= |order| && order <= more
    ensures SeedPrefix(s, order, ips, now, n) == SeedPrefix(s, more, ips, now, n)
  {
    if n > 0 {
      SeedPrefixAgrees(s, order, more, ips, now, n - 1);
    }
  }

  /** Visiting one more pod seeds it last. */
  lemma SeedPrefixGrows<Id>(s: State<Id>, order: seq<PodRef>, pod: PodRef, ips: PodRef -> string, now: int)
    requires VisitOrder(s, order) && pod !in order && s.Has(pod.namespace, pod.name)
    requires s.pods[pod.namespace][pod.name] in s.info
    ensures VisitOrder(s, order + [pod])
    ensures var t := SeedPrefix(s, order, ips, now, |order|);
            && t.Has(pod.namespace, pod.name) && t.pods[pod.namespace][pod.name] in t.info
            && SeedPrefix(s, order + [pod], ips, now, |order| + 1) == SeedPod(t, pod, ips(pod), now)
  {
    var more := order + [pod];
    assert VisitOrder(s, more);
    SeedPrefixAgrees(s, order, more, ips, now, |order|);
    var t := SeedPrefix(s, order, ips, now, |order|);
    assert t.Has(pod.namespace, pod.name) <==> s.Has(pod.namespace, pod.name);
  }

  /** The cluster has answered for the pods of `order`; every other registered pod is in `todo`. */
  ghost predicate Visited<Id>(s: State<Id>, order: seq<PodRef>, cluster: PodRef -> Option<string>, todo: set<PodRef>) {
    && VisitOrder(s, order)
    && (forall pod :: pod in order ==> cluster(pod).Some? && pod !in todo)
    && (forall ns, name :: s.Has(ns, name) ==> PodRef(ns, name) in order || PodRef(ns, name) in todo)
  }

  /** Where start-up has got to: t is s with the pods of `order` seeded, and `todo` still to visit. */
  ghost predicate SeedAt<Id>(s: State<Id>, t: State<Id>, order: seq<PodRef>, cluster: PodRef -> Option<string>,
                             now: int, todo: set<PodRef>) {
    Visited(s, order, cluster, todo) && t == SeedPrefix(s, order, Reported(cluster), now, |order|)
  }

  /** Start-up has stopped because the cluster does not answer for some configured pod. */
  ghost predicate SeedStopped<Id>(s: State<Id>, t: State<Id>, order: seq<PodRef>, cluster: PodRef -> Option<string>,
                                  now: int) {
    && VisitOrder(s, order) && (forall pod :: pod in order ==> cluster(pod).Some?)
    && t == SeedPrefix(s, order, Reported(cluster), now, |order|)
    && exists ns, name :: s.Has(ns, name) && cluster(PodRef(ns, name)).None?
  }

  /** The registered pods of some namespaces. */
  ghost function PodsOf<Id>(s: State<Id>, namespaces: set<string>): set<PodRef> {
    set ns, name | ns in s.pods && ns in namespaces && name in s.pods[ns] :: PodRef(ns, name)
  }

  /** Besides the pods of some namespaces, some names of one more. */
  ghost function LeftWith<Id>(s: State<Id>, namespaces: set<string>, namespace: string,
                              names: set<string>): set<PodRef> {
    PodsOf(s, namespaces) + set name | name in names :: PodRef(namespace, name)
  }

  lemma SeedNamespaceStarts<Id>(s: State<Id>, todo: set<string>, namespace: string)
    requires namespace in todo && namespace in s.pods
    ensures LeftWith(s, todo - {namespace}, namespace, s.pods[namespace].Keys) == PodsOf(s, todo)
    ensures LeftWith(s, todo - {namespace}, namespace, {}) == PodsOf(s, todo - {namespace})
  {
    var names := s.pods[namespace].Keys;
    assert forall pod :: pod in PodsOf(s, todo) <==> pod in LeftWith(s, todo - {namespace}, namespace, names);
  }

  lemma LeftWithout<Id>(s: State<Id>, namespaces: set<string>, namespace: string, names: set<string>, name: string)
    requires namespace !in namespaces && name in names
    ensures PodRef(namespace, name) in LeftWith(s, namespaces, namespace, names)
    ensures LeftWith(s, namespaces, namespace, names - {name})
            == LeftWith(s, namespaces, namespace, names) - {PodRef(namespace, name)}
  {
  }

  lemma SeedStarts<Id>(s: State<Id>, cluster: PodRef -> Option<string>, now: int)
    ensures SeedAt(s, s, [], cluster, now, PodsOf(s, s.pods.Keys))
  {
    assert forall ns, name :: s.Has(ns, name) ==> PodRef(ns, name) in PodsOf(s, s.pods.Keys);
  }

  lemma VisitedMore<Id>(s: State<Id>, order: seq<PodRef>, cluster: PodRef -> Option<string>, todo: set<PodRef>,
                        pod: PodRef)
    requires Visited(s, order, cluster, todo) && pod in todo && cluster(pod).Some?
    requires s.Has(pod.namespace, pod.name) && s.pods[pod.namespace][pod.name] in s.info
    ensures Visited(s, order + [pod], cluster, todo - {pod})
  {
  }

  /** The next pod to visit is registered under a known record, which carries its name. */
  lemma SeedReady<Id>(s: State<Id>, t: State<Id>, order: seq<PodRef>, cluster: PodRef -> Option<string>, now: int,
                      todo: set<PodRef>, pod: PodRef)
    requires Configured(s) && SeedAt(s, t, order, cluster, now, todo) && s.Has(pod.namespace, pod.name)
    ensures t.Has(pod.namespace, pod.name) && t.pods[pod.namespace][pod.name] in t.info
    ensures PodOf(t.info[t.pods[pod.namespace][pod.name]]) == pod
  {
    SeedPrefixKeysKept(s, order, Reported(cluster), now, |order|);
    assert t.pods == s.pods && t.info.Keys == s.info.Keys;
  }

  lemma SeedAdvances<Id>(s: State<Id>, t: State<Id>, order: seq<PodRef>, cluster: PodRef -> Option<string>, now: int,
                         todo: set<PodRef>, pod: PodRef)
    requires Configured(s) && SeedAt(s, t, order, cluster, now, todo) && pod in todo && s.Has(pod.namespace, pod.name)
    requires t.Has(pod.namespace, pod.name) && t.pods[pod.namespace][pod.name] in t.info && cluster(pod).Some?
    ensures SeedAt(s, SeedPod(t, pod, cluster(pod).value, now), order + [pod], cluster, now, todo - {pod})
  {
    SeedPrefixGrows(s, order, pod, Reported(cluster), now);
    VisitedMore(s, order, cluster, todo, pod);
  }

  /** What start-up leaves: the invariant in any case, and if it finishes, a complete index exactly
      when no two configured pods share an IP. */
  lemma SeedOutcome<Id>(s: State<Id>, t: State<Id>, order: seq<PodRef>, cluster: PodRef -> Option<string>, now: int)
    requires Configured(s)
    requires SeedAt(s, t, order, cluster, now, {}) || SeedStopped(s, t, order, cluster, now)
    ensures Inv(t)
    ensures SeedAt(s, t, order, cluster, now, {}) ==>
              && VisitsAll(s, order) && (forall pod :: pod in order ==> cluster(pod).Some?)
              && (Complete(t) <==> forall i, j :: 0 <= i < j < |order| ==>
                 Reported(cluster)(order[i]) != Reported(cluster)(order[j]))
  {
    SeedKeeps(s, order, Reported(cluster), now, |order|);
    if SeedAt(s, t, order, cluster, now, {}) {
      SeedCompleteIff(s, order, Reported(cluster), now);
    }
  }

  class Kubernetes {
    var chaosMap: map<string, Request>
    var podMap: map<string, map<string, PodInfo>>
    var ipPodMap: map<string, PodInfo>
    ghost var known: set<PodInfo>

    constructor ()
      ensures Abs() == State(map[], map[], map[], map[]) && Closed(Abs())
    {
      chaosMap, podMap, ipPodMap, known := map[], map[], map[], {};
    }

    ghost function Abs(): State<PodInfo>
      reads this, known
    {
      State(chaosMap, podMap, ipPodMap, map p | p in known :: p.Data())
    }

    /** Forgets the pod and the IP it was recorded with. */
    method DropPod(pod: PodRef)
      requires Closed(Abs())
      modifies this`podMap, this`ipPodMap
      ensures Abs() == Drop(old(Abs()), pod) && Closed(Abs())
    {
      if pod.namespace in podMap {
        if pod.name in podMap[pod.namespace] {
          assert Abs().Has(pod.namespace, pod.name);
          var podInfo := podMap[pod.namespace][pod.name];
          podMap := podMap[pod.namespace := podMap[pod.namespace] - {pod.name}];
          ipPodMap := ipPodMap - {podInfo.ip};
        }
      }
      DropClosed(old(Abs()), pod);
    }

    /** Puts a new record in place of whatever its pod had. */
    method RegisterPod(podInfo: PodInfo)
      requires Closed(Abs()) && podInfo !in known
      modifies this`podMap, this`ipPodMap, this`known
      ensures Abs() == Register(old(Abs()), podInfo, podInfo.Data())
      ensures known == old(known) + {podInfo}
    {
      DropPod(PodRef(podInfo.namespace, podInfo.name));
      Enroll(podInfo);
      Learn(podInfo);
    }

    /** Adds the record to both maps. */
    method Enroll(podInfo: PodInfo)
      modifies this`podMap, this`ipPodMap
      ensures ipPodMap == old(ipPodMap)[podInfo.ip := podInfo]
      ensures var ofNamespace: map<string, PodInfo> :=
                if podInfo.namespace in old(podMap) then old(podMap)[podInfo.namespace] else map[];
              podMap == old(podMap)[podInfo.namespace := ofNamespace[podInfo.name := podInfo]]
    {
      if podInfo.namespace !in podMap {
        podMap := podMap[podInfo.namespace := map[]];
      }
      var ofNamespace: map<string, PodInfo> := podMap[podInfo.namespace];
      ofNamespace := ofNamespace[podInfo.name := podInfo];
      podMap := podMap[podInfo.namespace := ofNamespace];
      ipPodMap := ipPodMap[podInfo.ip := podInfo];
    }

    /** The record becomes known. */
    ghost method Learn(podInfo: PodInfo)
      modifies this`known
      ensures known == old(known) + {podInfo}
      ensures Abs() == old(Abs()).(info := old(Abs()).info[podInfo := podInfo.Data()])
    {
      known := known + {podInfo};
      assert Abs().info == old(Abs()).info[podInfo := podInfo.Data()];
    }

    /** Makes and registers the record of one pod. */
    method SetPod(d: PodData) returns (podInfo: PodInfo)
      requires Closed(Abs())
      modifies this`podMap, this`ipPodMap, this`known
      ensures fresh(podInfo) && known == old(known) + {podInfo}
      ensures Abs() == Register(old(Abs()), podInfo, d)
    {
      podInfo := new PodInfo(d);
      RegisterPod(podInfo);
    }

    /** Takes a call one pod further. */
    method SetNext(ghost s: State<PodInfo>, ghost call: SetCall<PodInfo>, d: PodData) returns (podInfo: PodInfo)
      requires Progress(s, call) && |call.ids| < call.Reached()
      requires d == PodData(call.req.pods[|call.ids|].namespace, call.req.pods[|call.ids|].name, call.req.action,
                            call.Scope(), call.selector, call.lookups[|call.ids|].value, call.now)
      modifies this`podMap, this`ipPodMap, this`known
      ensures Progress(s, call.(ids := call.ids + [podInfo]))
    {
      ghost var t := Abs();
      podInfo := SetPod(d);
      SetPrefixExtends(s, call, t, podInfo);
    }

    /** Records the request, then registers its pods one by one until the cluster fails to answer. */
    method SetDNSChaos(req: Request, built: Option<Selector>, lookups: seq<Option<string>>, now: int)
      returns (ok: bool, ghost ids: seq<PodInfo>)
      requires |lookups| == |req.pods| && Closed(Abs())
      modifies this
      ensures var call := SetCall(req, built, lookups, ids, now);
              && call.Valid() && Fresh(old(Abs()), call)
              && Abs() == SetChaos(old(Abs()), call)
              && ok == call.Succeeds()
      ensures Closed(Abs())
    {
      ghost var s := Abs();
      chaosMap := chaosMap[req.name := req];
      var scope := "";
      if |req.patterns| == 0 {
        scope := SCOPE_ALL;
      }
      ids := [];
      if built.None? {
        return false, [];
      }
      for i := 0 to |req.pods|
        invariant |ids| == i <= LeadingSome(lookups)
        invariant Progress(s, SetCall(req, built, lookups, ids, now))
      {
        var pod := req.pods[i];
        if lookups[i].None? {
          return false, ids;
        }
        var d := PodData(pod.namespace, pod.name, req.action, scope, built, lookups[i].value, now);
        var podInfo := SetNext(s, SetCall(req, built, lookups, ids, now), d);
        ids := ids + [podInfo];
      }
      ok := true;
    }

    /** The registry is where the call's identities so far have brought it. */
    ghost predicate Progress(s: State<PodInfo>, call: SetCall<PodInfo>)
      reads this, known
    {
      && call.Shaped() && Fresh(s, call) && Closed(Abs())
      && s.info.Keys <= known && (forall p :: p in call.ids ==> p in known)
      && Abs() == SetPrefix(s, call, |call.ids|)
    }

    /** Forgets the pods of a live request, then the namespaces left empty, then the request. */
    method CancelDNSChaos(name: string)
      requires Closed(Abs())
      modifies this
      ensures Abs() == CancelChaos(old(Abs()), name) && Closed(Abs())
      ensures known == old(known)
    {
      ghost var s := Abs();
      if name !in chaosMap {
        return;
      }
      var pods := chaosMap[name].pods;
      for i := 0 to |pods|
        invariant known == old(known) && chaosMap == old(chaosMap)
        invariant Closed(Abs()) && Abs() == DropAll(s, pods[..i])
      {
        assert pods[..i + 1][..i] == pods[..i];
        DropPod(pods[i]);
      }
      assert pods[..|pods|] == pods;
      ghost var t := Abs();
      PruneNamespaces();
      chaosMap := chaosMap - {name};
      assert Abs() == Prune(t).(chaos := t.chaos - {name});
      assert forall ns, pod :: Abs().Has(ns, pod) ==> t.Has(ns, pod) && Abs().pods[ns][pod] == t.pods[ns][pod];
    }

    /** Lists the namespaces without pods. */
    method EmptyNamespaces() returns (shouldDeleteNs: seq<string>)
      ensures forall ns :: ns in shouldDeleteNs <==> ns in podMap && podMap[ns] == map[]
    {
      shouldDeleteNs := [];
      var todo := podMap.Keys;
      while todo != {}
        invariant todo <= podMap.Keys
        invariant forall ns :: ns in shouldDeleteNs <==> ns in podMap && ns !in todo && podMap[ns] == map[]
        decreases |todo|
      {
        var namespace :| namespace in todo;
        todo := todo - {namespace};
        if |podMap[namespace]| == 0 {
          shouldDeleteNs := shouldDeleteNs + [namespace];
        }
      }
    }

    method PruneNamespaces()
      modifies this`podMap
      ensures podMap == map ns | ns in old(podMap) && old(podMap)[ns] != map[] :: old(podMap)[ns]
    {
      var shouldDeleteNs := EmptyNamespaces();
      for i := 0 to |shouldDeleteNs|
        invariant podMap == old(podMap) - (set ns | ns in shouldDeleteNs[..i])
      {
        assert shouldDeleteNs[..i + 1] == shouldDeleteNs[..i] + [shouldDeleteNs[i]];
        podMap := podMap - {shouldDeleteNs[i]};
      }
      assert shouldDeleteNs[..|shouldDeleteNs|] == shouldDeleteNs;
    }

    /** Writes a pod's new IP into its record. */
    method Relocate(podInfo: PodInfo, ip: string, now: int)
      requires podInfo in known
      modifies podInfo`ip, podInfo`lastUpdateTime
      ensures podInfo.Data() == Relocated(old(podInfo.Data()), ip, now)
      ensures Abs() == old(Abs()).(info := old(Abs()).info[podInfo := Relocated(old(podInfo.Data()), ip, now)])
    {
      podInfo.ip := ip;
      podInfo.lastUpdateTime := now;
      assert Abs().info == old(Abs()).info[podInfo := podInfo.Data()];
    }

    /** The write of a refresh in the order the program has: the record's IP is assigned before it
        is used as the key to delete. */
    method WriteAsWritten(podInfo: PodInfo, ip: string, now: int)
      requires podInfo in known
      modifies this`ipPodMap, podInfo`ip, podInfo`lastUpdateTime
      ensures Abs() == WrittenWrite(old(Abs()), podInfo, ip, now)
    {
      Relocate(podInfo, ip, now);
      ipPodMap := ipPodMap - {podInfo.ip};
      ipPodMap := ipPodMap[ip := podInfo];
    }

    method IsRegistered(podInfo: PodInfo) returns (registered: bool)
      requires podInfo in known
      ensures registered == Abs().Registered(podInfo)
    {
      assert Abs().info[podInfo] == podInfo.Data();
      registered := podInfo.namespace in podMap && podInfo.name in podMap[podInfo.namespace]
                    && podMap[podInfo.namespace][podInfo.name] == podInfo;
    }

    /** The write as intended: registration is checked again, and the old IP is evicted. */
    method WriteEvicting(podInfo: PodInfo, ip: string, now: int)
      requires podInfo in known
      modifies this`ipPodMap, podInfo`ip, podInfo`lastUpdateTime
      ensures Abs() == EvictingWrite(old(Abs()), podInfo, ip, now)
    {
      var registered := IsRegistered(podInfo);
      if registered {
        var oldIP := podInfo.ip;
        Relocate(podInfo, ip, now);
        ipPodMap := ipPodMap - {oldIP};
        ipPodMap := ipPodMap[ip := podInfo];
      }
    }

    /** Looks a source IP up, refreshing the record when it is overdue and has moved. */
    method GetChaosPod(ip: string, lookup: Option<string>, now: int) returns (found: Option<PodInfo>, failed: bool)
      requires Closed(Abs())
      modifies this`ipPodMap, known
      ensures Abs() == WrittenRefresh(old(Abs()), ip, lookup, now)
      ensures failed <==> ip in old(ipPodMap) && now > old(ipPodMap[ip].lastUpdateTime) + 10 && lookup.None?
      ensures found == if ip in old(ipPodMap) && !failed then Some(old(ipPodMap)[ip]) else None
    {
      if ip !in ipPodMap {
        return None, false;
      }
      var podInfo := ipPodMap[ip];
      assert podInfo in known;
      var overdue := podInfo.IsOverdue(now);
      if overdue {
        if lookup.None? {
          return None, true;
        }
        if lookup.value != podInfo.ip {
          WriteAsWritten(podInfo, lookup.value, now);
        }
      }
      return Some(podInfo), false;
    }

    /** The same lookup with the intended write. */
    method GetChaosPodEvicting(ip: string, lookup: Option<string>, now: int)
      returns (found: Option<PodInfo>, failed: bool)
      requires Closed(Abs())
      modifies this`ipPodMap, known
      ensures Abs() == EvictingRefresh(old(Abs()), ip, lookup, now)
      ensures failed <==> ip in old(ipPodMap) && now > old(ipPodMap[ip].lastUpdateTime) + 10 && lookup.None?
      ensures found == if ip in old(ipPodMap) && !failed then Some(old(ipPodMap)[ip]) else None
    {
      if ip !in ipPodMap {
        return None, false;
      }
      var podInfo := ipPodMap[ip];
      assert podInfo in known;
      var overdue := podInfo.IsOverdue(now);
      if overdue {
        if lookup.None? {
          return None, true;
        }
        if lookup.value != podInfo.ip {
          WriteEvicting(podInfo, lookup.value, now);
        }
      }
      return Some(podInfo), false;
    }

    /** Indexes one configured pod under the IP the cluster reports. */
    method SeedOne(podInfo: PodInfo, ghost pod: PodRef, ip: string, now: int)
      requires podInfo in known && Abs().Has(pod.namespace, pod.name) && podMap[pod.namespace][pod.name] == podInfo
      modifies this`ipPodMap, podInfo`ip, podInfo`lastUpdateTime
      ensures Abs() == SeedPod(old(Abs()), pod, ip, now)
    {
      Relocate(podInfo, ip, now);
      ipPodMap := ipPodMap[ip := podInfo];
    }

    /** Visits one pod. */
    method SeedNext(ghost s: State<PodInfo>, ghost order: seq<PodRef>, ghost todo: set<PodRef>, namespace: string,
                    name: string,
                    cluster: PodRef -> Option<string>, now: int) returns (ok: bool)
      requires Configured(s) && SeedAt(s, Abs(), order, cluster, now, todo)
      requires PodRef(namespace, name) in todo && s.Has(namespace, name)
      modifies this`ipPodMap, known
      ensures ok == cluster(PodRef(namespace, name)).Some?
      ensures ok ==> SeedAt(s, Abs(), order + [PodRef(namespace, name)], cluster, now, todo - {PodRef(namespace, name)})
      ensures !ok ==> Abs() == old(Abs())
    {
      ghost var pod, t := PodRef(namespace, name), Abs();
      SeedReady(s, t, order, cluster, now, todo, pod);
      var podInfo := podMap[namespace][name];
      assert podInfo in known && podInfo.Data() == t.info[podInfo];
      var lookup := cluster(PodRef(podInfo.namespace, podInfo.name));
      if lookup.None? {
        return false;
      }
      SeedAdvances(s, t, order, cluster, now, todo, pod);
      SeedOne(podInfo, pod, lookup.value, now);
      ok := true;
    }

    /** Visits the pods of one namespace, in no particular order. */
    method SeedNamespace(ghost s: State<PodInfo>, ghost before: seq<PodRef>, ghost todo: set<string>, namespace: string,
                         cluster: PodRef -> Option<string>, now: int) returns (ok: bool, ghost order: seq<PodRef>)
      requires Configured(s) && SeedAt(s, Abs(), before, cluster, now, PodsOf(s, todo))
      requires podMap == s.pods && namespace in todo && namespace in podMap
      modifies this`ipPodMap, known
      ensures ok ==> SeedAt(s, Abs(), order, cluster, now, PodsOf(s, todo - {namespace}))
      ensures !ok ==> SeedStopped(s, Abs(), order, cluster, now)
    {
      order := before;
      SeedNamespaceStarts(s, todo, namespace);
      var names := podMap[namespace].Keys;
      while names != {}
        invariant names <= podMap[namespace].Keys
        invariant SeedAt(s, Abs(), order, cluster, now, LeftWith(s, todo - {namespace}, namespace, names))
        decreases |names|
      {
        var name :| name in names;
        LeftWithout(s, todo - {namespace}, namespace, names, name);
        var reported := SeedNext(s, order, LeftWith(s, todo - {namespace}, namespace, names), namespace, name,
            cluster, now);
        if !reported {
          return false, order;
        }
        order := order + [PodRef(namespace, name)];
        names := names - {name};
      }
      ok := true;
    }

    /** Asks the cluster for the IP of every configured pod and indexes it, in no particular order,
        until the cluster fails to answer. */
    method InitKubeCache(cluster: PodRef -> Option<string>, now: int) returns (ok: bool, ghost order: seq<PodRef>)
      requires Configured(Abs())
      modifies this`ipPodMap, known
      ensures ok ==> SeedAt(old(Abs()), Abs(), order, cluster, now, {})
      ensures !ok ==> SeedStopped(old(Abs()), Abs(), order, cluster, now)
    {
      ghost var s := Abs();
      order := [];
      var todo := podMap.Keys;
      SeedStarts(s, cluster, now);
      while todo != {}
        invariant todo <= podMap.Keys
        invariant SeedAt(s, Abs(), order, cluster, now, PodsOf(s, todo))
        decreases |todo|
      {
        var namespace :| namespace in todo;
        ok, order := SeedNamespace(s, order, todo, namespace, cluster, now);
        if !ok {
          return;
        }
        todo := todo - {namespace};
      }
      assert PodsOf(s, {}) == {};
      ok := true;
    }
  }
}
