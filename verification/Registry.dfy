/** The fault registry as a state machine: which pods are under fault, and which IPs lead to them. */
module Registry {
  import opened Objects

  datatype PodRef = PodRef(namespace: string, name: string)

  datatype Request = Request(name: string, pods: seq<PodRef>, action: string, patterns: seq<string>)

  /** A host pattern selector, once built. */
  type Selector = string -> bool

  const SCOPE_ALL := "all"

  datatype PodData = PodData(
    namespace: string,
    name: string,
    action: string,
    scope: string,
    selector: Option<Selector>,
    ip: string,
    lastUpdate: int)
  {
    /** The IP has not been refreshed for more than ten seconds. */
    predicate IsOverdue(now: int) {
      now - lastUpdate > 10
    }
  }

  /** The registry's maps, over pod records with an identity of their own: two records can carry the
      same namespace and name, but only one of them is registered. */
  datatype State<Id(==)> = State(
    chaos: map<string, Request>,
    pods: map<string, map<string, Id>>,
    byIP: map<string, Id>,
    info: map<Id, PodData>)
  {
    predicate Has(ns: string, name: string) {
      ns in pods && name in pods[ns]
    }

    /** The record is the one registered under its namespace and name. */
    predicate Registered(id: Id)
      requires id in info
    {
      Has(info[id].namespace, info[id].name) && pods[info[id].namespace][info[id].name] == id
    }
  }

  /** Everything the maps mention is a known record. */
  ghost predicate Closed<Id>(s: State<Id>) {
    && (forall ns, name :: s.Has(ns, name) ==> s.pods[ns][name] in s.info)
    && (forall ip :: ip in s.byIP ==> s.byIP[ip] in s.info)
  }

  /** Every registered entry carries its keys, and every IP leads to a registered record with that IP. */
  ghost predicate LooseInv<Id>(s: State<Id>) {
    && (forall ns, name :: s.Has(ns, name) ==>
          var id := s.pods[ns][name];
          id in s.info && s.info[id].namespace == ns && s.info[id].name == name)
    && (forall ip :: ip in s.byIP ==>
          var id := s.byIP[ip];
          id in s.info && s.info[id].ip == ip && s.Registered(id))
  }

  /** Besides, no namespace is empty. */
  ghost predicate Inv<Id>(s: State<Id>) {
    LooseInv(s) && forall ns :: ns in s.pods ==> s.pods[ns] != map[]
  }

  /** The recorded IP of a registered pod. */
  function RecordedIP<Id>(s: State<Id>, ns: string, name: string): string
    requires s.Has(ns, name) && s.pods[ns][name] in s.info
  {
    s.info[s.pods[ns][name]].ip
  }

  /** Every registered pod is found under its recorded IP. */
  ghost predicate Complete<Id>(s: State<Id>)
    requires LooseInv(s)
  {
    forall ns, name :: s.Has(ns, name) ==>
      RecordedIP(s, ns, name) in s.byIP && s.byIP[RecordedIP(s, ns, name)] == s.pods[ns][name]
  }

  // ---------------------------------------------------------------------------------------------
  // Setting
  // ---------------------------------------------------------------------------------------------

  /** Removes a pod and the index entry of its recorded IP, when it is registered. */
  function Drop<Id>(s: State<Id>, pod: PodRef): State<Id>
    requires s.Has(pod.namespace, pod.name) ==> s.pods[pod.namespace][pod.name] in s.info
  {
    if s.Has(pod.namespace, pod.name) then
      s.(pods := s.pods[pod.namespace := s.pods[pod.namespace] - {pod.name}],
         byIP := s.byIP - {RecordedIP(s, pod.namespace, pod.name)})
    else s
  }

  /** Registers a new record for its pod, replacing any old one. */
  function Register<Id>(s: State<Id>, id: Id, d: PodData): State<Id>
    requires s.Has(d.namespace, d.name) ==> s.pods[d.namespace][d.name] in s.info
  {
    var t := Drop(s, PodRef(d.namespace, d.name));
    var ofNamespace := if d.namespace in t.pods then t.pods[d.namespace] else map[];
    t.(pods := t.pods[d.namespace := ofNamespace[d.name := id]],
       byIP := t.byIP[d.ip := id],
       info := t.info[id := d])
  }

  /** One Set call: the request, its selector if that could be built, the cluster's answer for each
      pod, the identities of the records it may create, and the time. */
  datatype SetCall<Id> = SetCall(
    req: Request,
    selector: Option<Selector>,
    lookups: seq<Option<string>>,
    ids: seq<Id>,
    now: int)
  {
    /** The cluster was asked for each pod, and identities were used for pods reached so far. */
    predicate Shaped() {
      |lookups| == |req.pods| && |ids| <= Reached()
    }

    predicate Valid() {
      Shaped() && |ids| == Reached()
    }

    function Scope(): string {
      if req.patterns == [] then SCOPE_ALL else ""
    }

    function Data(i: nat): PodData
      requires Shaped() && i < |ids|
    {
      PodData(req.pods[i].namespace, req.pods[i].name, req.action, Scope(), selector, lookups[i].value, now)
    }

    /** How many pods are registered before the call fails or ends. */
    function Reached(): (n: nat)
      ensures n <= |lookups|
      ensures forall i :: 0 <= i < n ==> lookups[i].Some?
      ensures n < |lookups| && selector.Some? ==> lookups[n].None?
    {
      if selector.None? then 0 else LeadingSome(lookups)
    }

    predicate Succeeds() {
      selector.Some? && Reached() == |lookups|
    }
  }

  function LeadingSome<T>(s: seq<Option<T>>): (n: nat)
    ensures n <= |s|
    ensures forall i :: 0 <= i < n ==> s[i].Some?
    ensures n < |s| ==> s[n].None?
  {
    if s == [] || s[0].None? then 0 else 1 + LeadingSome(s[1..])
  }

  /** The identities a call brings are new to the state. */
  ghost predicate Fresh<Id>(s: State<Id>, call: SetCall<Id>) {
    && (forall i :: 0 <= i < |call.ids| ==> call.ids[i] !in s.info)
    && (forall i, j :: 0 <= i < j < |call.ids| ==> call.ids[i] != call.ids[j])
  }

  /** The state after the request is recorded and its first n pods are registered. */
  ghost function SetPrefix<Id>(s: State<Id>, call: SetCall<Id>, n: nat): State<Id>
    requires call.Shaped() && n <= |call.ids|
  {
    if n == 0 then s.(chaos := s.chaos[call.req.name := call.req])
    else
      var t := SetPrefix(s, call, n - 1);
      var d := call.Data(n - 1);
      if t.Has(d.namespace, d.name) && t.pods[d.namespace][d.name] !in t.info then t
      else Register(t, call.ids[n - 1], d)
  }

  ghost function SetChaos<Id>(s: State<Id>, call: SetCall<Id>): State<Id>
    requires call.Valid()
  {
    SetPrefix(s, call, |call.ids|)
  }

  // ---------------------------------------------------------------------------------------------
  // Cancelling
  // ---------------------------------------------------------------------------------------------

  ghost function DropAll<Id>(s: State<Id>, pods: seq<PodRef>): State<Id>
  {
    if pods == [] then s
    else
      var n := |pods| - 1;
      var t := DropAll(s, pods[..n]);
      if t.Has(pods[n].namespace, pods[n].name) && t.pods[pods[n].namespace][pods[n].name] !in t.info then t
      else Drop(t, pods[n])
  }

  function Prune<Id>(s: State<Id>): State<Id> {
    s.(pods := map ns | ns in s.pods && s.pods[ns] != map[] :: s.pods[ns])
  }

  ghost function CancelChaos<Id>(s: State<Id>, name: string): State<Id> {
    if name !in s.chaos then s
    else
      var t := Prune(DropAll(s, s.chaos[name].pods));
      t.(chaos := t.chaos - {name})
  }

  // ---------------------------------------------------------------------------------------------
  // Refreshing
  // ---------------------------------------------------------------------------------------------

  function Relocated(d: PodData, ip: string, now: int): PodData {
    d.(ip := ip, lastUpdate := now)
  }

  /** The write of a refresh as intended: if the record is still registered, its old IP is evicted. */
  function EvictingWrite<Id>(s: State<Id>, id: Id, ip: string, now: int): State<Id>
    requires id in s.info
  {
    if !s.Registered(id) then s
    else
      s.(info := s.info[id := Relocated(s.info[id], ip, now)],
         byIP := (s.byIP - {s.info[id].ip})[ip := id])
  }

  /** The write of a refresh as written: the record's IP is assigned first, so the key that is
      deleted is the new IP, and the old one stays. Registration is not checked again. */
  function WrittenWrite<Id>(s: State<Id>, id: Id, ip: string, now: int): State<Id>
    requires id in s.info
  {
    var t := s.(info := s.info[id := Relocated(s.info[id], ip, now)]);
    t.(byIP := (t.byIP - {t.info[id].ip})[ip := id])
  }

  /** The read of a refresh: the record to update, if its IP is overdue and the cluster reports
      another one. */
  function RefreshDue<Id>(s: State<Id>, ip: string, lookup: Option<string>, now: int): Option<Id>
    requires ip in s.byIP ==> s.byIP[ip] in s.info
  {
    if ip !in s.byIP then None
    else
      var d := s.info[s.byIP[ip]];
      if d.IsOverdue(now) && lookup.Some? && lookup.value != d.ip then Some(s.byIP[ip]) else None
  }

  lemma DropClosed<Id>(s: State<Id>, pod: PodRef)
    requires Closed(s)
    ensures Closed(Drop(s, pod))
  {
    var t := Drop(s, pod);
    assert forall ns, name :: t.Has(ns, name) ==> s.Has(ns, name) && t.pods[ns][name] == s.pods[ns][name];
  }

  lemma RegisterClosed<Id>(s: State<Id>, id: Id, d: PodData)
    requires Closed(s)
    ensures Closed(Register(s, id, d))
  {
    var t, u := Drop(s, PodRef(d.namespace, d.name)), Register(s, id, d);
    DropClosed(s, PodRef(d.namespace, d.name));
    assert forall ns, name :: u.Has(ns, name) ==>
      || (ns == d.namespace && name == d.name && u.pods[ns][name] == id)
      || (t.Has(ns, name) && u.pods[ns][name] == t.pods[ns][name]);
  }

  // ---------------------------------------------------------------------------------------------
  // Every step keeps the invariant.
  // ---------------------------------------------------------------------------------------------

  /** t is s without the pod. */
  ghost predicate Dropped<Id>(s: State<Id>, t: State<Id>, pod: PodRef)
    requires Closed(s)
  {
    && t.info == s.info && t.chaos == s.chaos
    && (forall ns, name :: t.Has(ns, name) <==> s.Has(ns, name) && PodRef(ns, name) != pod)
    && (forall ns, name :: t.Has(ns, name) ==> t.pods[ns][name] == s.pods[ns][name])
    && (forall ns :: ns in t.pods ==> ns in s.pods && (ns == pod.namespace || t.pods[ns] == s.pods[ns]))
    && (forall ip :: ip in t.byIP <==>
          ip in s.byIP && !(s.Has(pod.namespace, pod.name) && ip == RecordedIP(s, pod.namespace, pod.name)))
    && (forall ip :: ip in t.byIP ==> t.byIP[ip] == s.byIP[ip])
  }

  lemma DropDrops<Id>(s: State<Id>, pod: PodRef)
    requires Closed(s)
    ensures Dropped(s, Drop(s, pod), pod)
  {
  }

  lemma DroppedKeeps<Id>(s: State<Id>, t: State<Id>, pod: PodRef)
    requires LooseInv(s) && Dropped(s, t, pod)
    ensures LooseInv(t)
    ensures Complete(s) ==> Complete(t)
  {
    forall ip | ip in t.byIP
      ensures t.byIP[ip] in t.info && t.info[t.byIP[ip]].ip == ip && t.Registered(t.byIP[ip])
    {
      DroppedIndex(s, t, pod, ip);
    }
    if Complete(s) {
      DroppedComplete(s, t, pod);
    }
  }

  lemma DroppedIndex<Id>(s: State<Id>, t: State<Id>, pod: PodRef, ip: string)
    requires LooseInv(s) && Dropped(s, t, pod) && ip in t.byIP
    ensures t.byIP[ip] in t.info && t.info[t.byIP[ip]].ip == ip && t.Registered(t.byIP[ip])
  {
    var d := s.info[s.byIP[ip]];
    assert s.Has(d.namespace, d.name);
  }

  lemma DroppedComplete<Id>(s: State<Id>, t: State<Id>, pod: PodRef)
    requires LooseInv(s) && Complete(s) && Dropped(s, t, pod) && LooseInv(t)
    ensures Complete(t)
  {
  }

  /** t is s with the pod of d registered as id. */
  ghost predicate Enrolled<Id>(s: State<Id>, t: State<Id>, id: Id, d: PodData)
    requires Closed(s)
  {
    && t.info == s.info[id := d] && t.chaos == s.chaos
    && (forall ns, name :: t.Has(ns, name) <==> s.Has(ns, name) || (ns == d.namespace && name == d.name))
    && (forall ns, name :: t.Has(ns, name) ==>
          t.pods[ns][name] == if ns == d.namespace && name == d.name then id else s.pods[ns][name])
    && (forall ns :: ns in t.pods ==> t.pods[ns] != map[] || (ns in s.pods && t.pods[ns] == s.pods[ns]))
    && (forall ip :: ip in t.byIP <==>
          || ip == d.ip
          || (ip in s.byIP && !(s.Has(d.namespace, d.name) && ip == RecordedIP(s, d.namespace, d.name))))
    && (forall ip :: ip in t.byIP ==> t.byIP[ip] == if ip == d.ip then id else s.byIP[ip])
  }

  lemma RegisterEnrolls<Id>(s: State<Id>, id: Id, d: PodData)
    requires Closed(s)
    ensures Enrolled(s, Register(s, id, d), id, d)
  {
    var pod := PodRef(d.namespace, d.name);
    DropDrops(s, pod);
    AddingAdds(Drop(s, pod), Register(s, id, d), id, d);
    AddedEnrolls(s, Drop(s, pod), Register(s, id, d), id, d);
  }

  lemma AddedEnrolls<Id>(s: State<Id>, t: State<Id>, u: State<Id>, id: Id, d: PodData)
    requires Closed(s) && Dropped(s, t, PodRef(d.namespace, d.name))
    requires u.chaos == t.chaos && u.info == t.info[id := d] && u.byIP == t.byIP[d.ip := id]
    requires Added(t, u, id, d)
    ensures Enrolled(s, u, id, d)
  {
  }

  /** The pods of u are those of t and the one of d. */
  ghost predicate Added<Id>(t: State<Id>, u: State<Id>, id: Id, d: PodData) {
    && (forall ns, name :: u.Has(ns, name) <==> t.Has(ns, name) || (ns == d.namespace && name == d.name))
    && (forall ns, name :: u.Has(ns, name) ==>
          u.pods[ns][name] == if ns == d.namespace && name == d.name then id else t.pods[ns][name])
    && (forall ns :: ns in u.pods ==> if ns == d.namespace then d.name in u.pods[ns]
                                      else ns in t.pods && u.pods[ns] == t.pods[ns])
  }

  lemma AddingAdds<Id>(t: State<Id>, u: State<Id>, id: Id, d: PodData)
    requires var others := if d.namespace in t.pods then t.pods[d.namespace] else map[];
             u.pods == t.pods[d.namespace := others[d.name := id]]
    ensures Added(t, u, id, d)
  {
  }

  lemma EnrolledKeeps<Id>(s: State<Id>, t: State<Id>, id: Id, d: PodData)
    requires Inv(s) && id !in s.info && Enrolled(s, t, id, d)
    ensures Inv(t)
  {
    forall ip | ip in t.byIP
      ensures t.byIP[ip] in t.info && t.info[t.byIP[ip]].ip == ip && t.Registered(t.byIP[ip])
    {
      EnrolledIndex(s, t, id, d, ip);
    }
  }

  lemma EnrolledIndex<Id>(s: State<Id>, t: State<Id>, id: Id, d: PodData, ip: string)
    requires LooseInv(s) && id !in s.info && Enrolled(s, t, id, d) && ip in t.byIP
    ensures t.byIP[ip] in t.info && t.info[t.byIP[ip]].ip == ip && t.Registered(t.byIP[ip])
  {
    if ip != d.ip {
      var x := s.byIP[ip];
      assert t.byIP[ip] == x && x != id && t.info[x] == s.info[x];
      assert s.Has(s.info[x].namespace, s.info[x].name);
    }
  }

  /** The next pod of a Set call is registered. */
  lemma SetPrefixNext<Id>(s: State<Id>, call: SetCall<Id>, n: nat)
    requires call.Shaped() && n < |call.ids| && Closed(SetPrefix(s, call, n))
    ensures Enrolled(SetPrefix(s, call, n), SetPrefix(s, call, n + 1), call.ids[n], call.Data(n))
  {
    RegisterEnrolls(SetPrefix(s, call, n), call.ids[n], call.Data(n));
  }

  /** t is what s becomes once a Set call has registered its first n pods. */
  ghost predicate Reaches<Id>(s: State<Id>, call: SetCall<Id>, n: nat, t: State<Id>)
    requires call.Shaped() && n <= |call.ids|
  {
    && Inv(t)
    && (forall i :: n <= i < |call.ids| ==> call.ids[i] !in t.info)
    && s.info.Keys <= t.info.Keys
    && t.chaos == s.chaos[call.req.name := call.req]
    && forall ns, name :: t.Has(ns, name) <==> s.Has(ns, name) || PodRef(ns, name) in call.req.pods[..n]
  }

  lemma ReachesNext<Id>(s: State<Id>, call: SetCall<Id>, n: nat, t: State<Id>, u: State<Id>)
    requires call.Shaped() && n < |call.ids| && Fresh(s, call) && Reaches(s, call, n, t)
    requires Enrolled(t, u, call.ids[n], call.Data(n))
    ensures Reaches(s, call, n + 1, u)
  {
    EnrolledKeeps(t, u, call.ids[n], call.Data(n));
    var before, after := call.req.pods[..n], call.req.pods[..n + 1];
    assert after == before + [call.req.pods[n]];
    forall ns, name
      ensures u.Has(ns, name) <==> s.Has(ns, name) || PodRef(ns, name) in after
    {
      assert PodRef(ns, name) in after <==> PodRef(ns, name) in before || PodRef(ns, name) == call.req.pods[n];
    }
  }

  lemma {:induction false} SetPrefixKeeps<Id>(s: State<Id>, call: SetCall<Id>, n: nat)
    requires call.Shaped() && n <= |call.ids| && Inv(s) && Fresh(s, call)
    ensures Reaches(s, call, n, SetPrefix(s, call, n))
  {
    if n > 0 {
      SetPrefixKeeps(s, call, n - 1);
      SetPrefixNext(s, call, n - 1);
      ReachesNext(s, call, n - 1, SetPrefix(s, call, n - 1), SetPrefix(s, call, n));
    } else {
      SetStart(s, call);
    }
  }

  lemma SetStart<Id>(s: State<Id>, call: SetCall<Id>)
    requires call.Shaped() && Inv(s)
    ensures Inv(SetPrefix(s, call, 0))
    ensures Complete(s) ==> Complete(SetPrefix(s, call, 0))
    ensures SetPrefix(s, call, 0).pods == s.pods && SetPrefix(s, call, 0).info == s.info
    ensures forall ns, name :: SetPrefix(s, call, 0).Has(ns, name) <==> s.Has(ns, name)
  {
    var t := SetPrefix(s, call, 0);
    assert forall ns, name :: t.Has(ns, name) <==> s.Has(ns, name);
    RecordedKeeps(s, t);
  }

  /** Only the registered pods and the index matter to the invariant. */
  lemma RecordedKeeps<Id>(s: State<Id>, t: State<Id>)
    requires LooseInv(s) && t.byIP == s.byIP && t.info == s.info
    requires forall ns, name :: t.Has(ns, name) <==> s.Has(ns, name)
    requires forall ns, name :: t.Has(ns, name) ==> t.pods[ns][name] == s.pods[ns][name]
    requires forall ns :: ns in t.pods ==> t.pods[ns] != map[]
    ensures Inv(t) && (Complete(s) ==> Complete(t))
  {
  }

  /** A Set call keeps the invariant, whether it succeeds or fails part-way. */
  lemma SetKeeps<Id>(s: State<Id>, call: SetCall<Id>)
    requires call.Valid() && Inv(s) && Fresh(s, call)
    ensures Inv(SetChaos(s, call))
  {
    SetPrefixKeeps(s, call, |call.ids|);
  }

  lemma DropAllNext<Id>(s: State<Id>, pods: seq<PodRef>)
    requires pods != [] && Closed(DropAll(s, pods[..|pods| - 1]))
    ensures Dropped(DropAll(s, pods[..|pods| - 1]), DropAll(s, pods), pods[|pods| - 1])
  {
    DropDrops(DropAll(s, pods[..|pods| - 1]), pods[|pods| - 1]);
  }

  lemma {:induction false} DropAllKeeps<Id>(s: State<Id>, pods: seq<PodRef>)
    requires LooseInv(s)
    ensures LooseInv(DropAll(s, pods))
    ensures Complete(s) ==> Complete(DropAll(s, pods))
    ensures DropAll(s, pods).info == s.info && DropAll(s, pods).chaos == s.chaos
    ensures forall ns, name :: DropAll(s, pods).Has(ns, name) <==> s.Has(ns, name) && PodRef(ns, name) !in pods
    ensures forall ns, name :: DropAll(s, pods).Has(ns, name) ==> DropAll(s, pods).pods[ns][name] == s.pods[ns][name]
  {
    if pods != [] {
      var n := |pods| - 1;
      DropAllKeeps(s, pods[..n]);
      DropAllNext(s, pods);
      DroppedKeeps(DropAll(s, pods[..n]), DropAll(s, pods), pods[n]);
      assert pods == pods[..n] + [pods[n]];
    }
  }

  /** Pruning removes only empty namespaces. */
  lemma PruneKeeps<Id>(s: State<Id>)
    requires LooseInv(s)
    ensures Inv(Prune(s))
    ensures Complete(s) ==> Complete(Prune(s))
    ensures forall ns, name :: Prune(s).Has(ns, name) <==> s.Has(ns, name)
    ensures forall ns, name :: s.Has(ns, name) ==> Prune(s).pods[ns][name] == s.pods[ns][name]
  {
    RecordedKeeps(s, Prune(s));
  }

  lemma ForgetKeeps<Id>(s: State<Id>, name: string)
    requires Inv(s)
    ensures Inv(s.(chaos := s.chaos - {name}))
    ensures Complete(s) ==> Complete(s.(chaos := s.chaos - {name}))
  {
    var t := s.(chaos := s.chaos - {name});
    assert forall ns, pod :: t.Has(ns, pod) <==> s.Has(ns, pod);
    RecordedKeeps(s, t);
  }

  /** A Cancel call keeps the invariant and a complete index, and removes exactly the pods its
      request listed. */
  lemma CancelKeeps<Id>(s: State<Id>, name: string)
    requires Inv(s)
    ensures Inv(CancelChaos(s, name))
    ensures Complete(s) ==> Complete(CancelChaos(s, name))
    ensures CancelChaos(s, name).info == s.info && CancelChaos(s, name).chaos == s.chaos - {name}
    ensures forall ns, pod :: CancelChaos(s, name).Has(ns, pod) <==>
              s.Has(ns, pod) && !(name in s.chaos && PodRef(ns, pod) in s.chaos[name].pods)
    ensures forall ns, pod :: CancelChaos(s, name).Has(ns, pod) ==>
            CancelChaos(s, name).pods[ns][pod] == s.pods[ns][pod]
  {
    if name in s.chaos {
      var t := DropAll(s, s.chaos[name].pods);
      DropAllKeeps(s, s.chaos[name].pods);
      PruneKeeps(t);
      ForgetKeeps(Prune(t), name);
    } else {
      assert s.chaos - {name} == s.chaos;
    }
  }

  lemma EvictingWriteKeeps<Id>(s: State<Id>, id: Id, ip: string, now: int)
    requires Inv(s) && id in s.info
    ensures Inv(EvictingWrite(s, id, ip, now))
  {
  }

  /** The index leads from the record's IP to the record. */
  predicate IndexedByOwnIP<Id>(s: State<Id>, id: Id)
    requires id in s.info
  {
    s.info[id].ip in s.byIP && s.byIP[s.info[id].ip] == id
  }

  /** t is s with the record moved to a new IP and indexed there, the old entry left in place. */
  ghost predicate MovedAsWritten<Id>(s: State<Id>, t: State<Id>, id: Id, ip: string)
    requires id in s.info
  {
    && t.pods == s.pods
    && t.info.Keys == s.info.Keys && (forall x :: x in s.info && x != id ==> t.info[x] == s.info[x])
    && t.info[id].namespace == s.info[id].namespace && t.info[id].name == s.info[id].name && t.info[id].ip == ip
    && t.byIP == s.byIP[ip := id]
  }

  lemma WrittenWriteMoves<Id>(s: State<Id>, id: Id, ip: string, now: int)
    requires id in s.info
    ensures MovedAsWritten(s, WrittenWrite(s, id, ip, now), id, ip)
  {
  }

  lemma MovedWellKeeps<Id>(s: State<Id>, t: State<Id>, id: Id, ip: string)
    requires Inv(s) && id in s.info && MovedAsWritten(s, t, id, ip)
    requires s.Registered(id) && (s.info[id].ip == ip || !IndexedByOwnIP(s, id))
    ensures Inv(t)
  {
    assert forall ns, name :: t.Has(ns, name) <==> s.Has(ns, name);
    forall x | x in t.byIP
      ensures t.byIP[x] in t.info && t.info[t.byIP[x]].ip == x && t.Registered(t.byIP[x])
    {
      if x != ip {
        assert x in s.byIP && t.byIP[x] == s.byIP[x] && s.byIP[x] != id;
      }
    }
  }

  lemma MovedBadlyBreaks<Id>(s: State<Id>, t: State<Id>, id: Id, ip: string)
    requires Inv(s) && id in s.info && MovedAsWritten(s, t, id, ip) && Inv(t)
    ensures s.Registered(id) && (s.info[id].ip == ip || !IndexedByOwnIP(s, id))
  {
    assert ip in t.byIP && t.byIP[ip] == id;
    var was := s.info[id].ip;
    assert was in s.byIP ==> was in t.byIP;
  }

  lemma MovedIff<Id>(s: State<Id>, t: State<Id>, id: Id, ip: string)
    requires Inv(s) && id in s.info && MovedAsWritten(s, t, id, ip)
    ensures Inv(t) <==> s.Registered(id) && (s.info[id].ip == ip || !IndexedByOwnIP(s, id))
  {
    if Inv(t) {
      MovedBadlyBreaks(s, t, id, ip);
    } else if s.Registered(id) && (s.info[id].ip == ip || !IndexedByOwnIP(s, id)) {
      MovedWellKeeps(s, t, id, ip);
    }
  }

  /** Exactly when the write as written keeps the invariant: the record must still be registered, and
      it must not be indexed under an IP other than the new one. */
  lemma WrittenWriteIff<Id>(s: State<Id>, id: Id, ip: string, now: int)
    requires Inv(s) && id in s.info
    ensures Inv(WrittenWrite(s, id, ip, now)) <==> s.Registered(id) && (s.info[id].ip == ip || !IndexedByOwnIP(s, id))
  {
    WrittenWriteMoves(s, id, ip, now);
    MovedIff(s, WrittenWrite(s, id, ip, now), id, ip);
  }

  /** Without interleaving: the written refresh breaks the invariant exactly when it writes at all. */
  lemma WrittenRefreshIff<Id>(s: State<Id>, ip: string, lookup: Option<string>, now: int)
    requires Inv(s)
    ensures Inv(WrittenRefresh(s, ip, lookup, now)) <==> RefreshDue(s, ip, lookup, now).None?
  {
    var due := RefreshDue(s, ip, lookup, now);
    if due.Some? {
      WrittenWriteIff(s, due.value, lookup.value, now);
    }
  }

  function WrittenRefresh<Id>(s: State<Id>, ip: string, lookup: Option<string>, now: int): State<Id>
    requires ip in s.byIP ==> s.byIP[ip] in s.info
  {
    match RefreshDue(s, ip, lookup, now)
    case None => s
    case Some(id) => WrittenWrite(s, id, lookup.value, now)
  }

  function EvictingRefresh<Id>(s: State<Id>, ip: string, lookup: Option<string>, now: int): State<Id>
    requires ip in s.byIP ==> s.byIP[ip] in s.info
  {
    match RefreshDue(s, ip, lookup, now)
    case None => s
    case Some(id) => EvictingWrite(s, id, lookup.value, now)
  }

  /** The broken state: the old IP still leads to a record that has moved away from it. */
  lemma StaleEntry<Id>(s: State<Id>, ip: string, lookup: Option<string>, now: int)
    requires Inv(s) && RefreshDue(s, ip, lookup, now).Some?
    ensures var t := WrittenRefresh(s, ip, lookup, now);
            ip in t.byIP && t.byIP[ip] in t.info && t.info[t.byIP[ip]].ip == lookup.value != ip
  {
  }

  // ---------------------------------------------------------------------------------------------
  // The index is the inverse of the recorded IPs.
  // ---------------------------------------------------------------------------------------------

  /** Another registered pod has this IP on record. */
  ghost predicate TakenByOther<Id>(s: State<Id>, ns: string, name: string, ip: string)
    requires Inv(s)
  {
    exists ns', name' :: s.Has(ns', name') && !(ns' == ns && name' == name) && RecordedIP(s, ns', name') == ip
  }

  /** Looking an IP up in the index finds what a search through the registered pods finds. */
  lemma LookupIsSearch<Id>(s: State<Id>, ip: string)
    requires Inv(s) && Complete(s)
    ensures ip in s.byIP <==> exists ns, name :: s.Has(ns, name) && RecordedIP(s, ns, name) == ip
    ensures forall ns, name :: s.Has(ns, name) && RecordedIP(s, ns, name) == ip ==> s.byIP[ip] == s.pods[ns][name]
  {
    if ip in s.byIP {
      var d := s.info[s.byIP[ip]];
      assert s.Has(d.namespace, d.name) && RecordedIP(s, d.namespace, d.name) == ip;
    }
  }

  lemma EnrolledComplete<Id>(s: State<Id>, t: State<Id>, id: Id, d: PodData)
    requires Inv(s) && Complete(s) && id !in s.info && Enrolled(s, t, id, d) && Inv(t)
    requires !TakenByOther(s, d.namespace, d.name, d.ip)
    ensures Complete(t)
  {
    forall ns, name | t.Has(ns, name)
      ensures RecordedIP(t, ns, name) in t.byIP && t.byIP[RecordedIP(t, ns, name)] == t.pods[ns][name]
    {
      if !(ns == d.namespace && name == d.name) {
        assert s.Has(ns, name) && RecordedIP(t, ns, name) == RecordedIP(s, ns, name);
      }
    }
  }

  lemma EnrolledIncomplete<Id>(s: State<Id>, t: State<Id>, id: Id, d: PodData, ns: string, name: string)
    requires Inv(s) && id !in s.info && Enrolled(s, t, id, d) && Inv(t)
    requires s.Has(ns, name) && !(ns == d.namespace && name == d.name) && RecordedIP(s, ns, name) == d.ip
    ensures !Complete(t)
  {
    assert t.Has(ns, name) && RecordedIP(t, ns, name) == d.ip && t.byIP[d.ip] == id;
    assert s.pods[ns][name] in s.info;
  }

  lemma RegisterCompleteIff<Id>(s: State<Id>, id: Id, d: PodData)
    requires Inv(s) && Complete(s) && id !in s.info
    ensures Inv(Register(s, id, d))
    ensures Complete(Register(s, id, d)) <==> !TakenByOther(s, d.namespace, d.name, d.ip)
  {
    RegisterEnrolls(s, id, d);
    var t := Register(s, id, d);
    EnrolledKeeps(s, t, id, d);
    if ns, name :| s.Has(ns, name) && !(ns == d.namespace && name == d.name) && RecordedIP(s, ns, name) == d.ip {
      EnrolledIncomplete(s, t, id, d, ns, name);
    } else {
      EnrolledComplete(s, t, id, d);
    }
  }

  /** t is s with the registered record moved to a new IP and its old entry evicted. */
  ghost predicate MovedEvicting<Id>(s: State<Id>, t: State<Id>, id: Id, ip: string)
    requires id in s.info
  {
    && t.pods == s.pods
    && t.info.Keys == s.info.Keys && (forall x :: x in s.info && x != id ==> t.info[x] == s.info[x])
    && t.info[id].namespace == s.info[id].namespace && t.info[id].name == s.info[id].name && t.info[id].ip == ip
    && t.byIP == (s.byIP - {s.info[id].ip})[ip := id]
  }

  lemma MovedKeeps<Id>(s: State<Id>, t: State<Id>, id: Id, ip: string)
    requires Inv(s) && id in s.info && s.Registered(id) && MovedEvicting(s, t, id, ip)
    ensures Inv(t)
    ensures forall ns, name :: t.Has(ns, name) <==> s.Has(ns, name)
  {
    assert forall ns, name :: t.Has(ns, name) <==> s.Has(ns, name);
  }

  lemma MovedCompleteAt<Id>(s: State<Id>, t: State<Id>, id: Id, ip: string, ns: string, name: string)
    requires Inv(s) && Complete(s) && id in s.info && s.Registered(id) && MovedEvicting(s, t, id, ip) && Inv(t)
    requires !TakenByOther(s, s.info[id].namespace, s.info[id].name, ip) && t.Has(ns, name)
    ensures RecordedIP(t, ns, name) in t.byIP && t.byIP[RecordedIP(t, ns, name)] == t.pods[ns][name]
  {
    assert s.Has(ns, name);
    if !(ns == s.info[id].namespace && name == s.info[id].name) {
      assert RecordedIP(t, ns, name) == RecordedIP(s, ns, name);
      assert RecordedIP(s, ns, name) != s.info[id].ip;
    }
  }

  lemma MovedComplete<Id>(s: State<Id>, t: State<Id>, id: Id, ip: string)
    requires Inv(s) && Complete(s) && id in s.info && s.Registered(id) && MovedEvicting(s, t, id, ip) && Inv(t)
    requires !TakenByOther(s, s.info[id].namespace, s.info[id].name, ip)
    ensures Complete(t)
  {
    forall ns, name | t.Has(ns, name)
      ensures RecordedIP(t, ns, name) in t.byIP && t.byIP[RecordedIP(t, ns, name)] == t.pods[ns][name]
    {
      MovedCompleteAt(s, t, id, ip, ns, name);
    }
  }

  lemma MovedIncomplete<Id>(s: State<Id>, t: State<Id>, id: Id, ip: string, ns: string, name: string)
    requires Inv(s) && id in s.info && s.Registered(id) && MovedEvicting(s, t, id, ip) && Inv(t)
    requires s.Has(ns, name) && !(ns == s.info[id].namespace && name == s.info[id].name) &&
             RecordedIP(s, ns, name) == ip
    ensures !Complete(t)
  {
    assert t.Has(ns, name) && RecordedIP(t, ns, name) == ip && t.byIP[ip] == id;
  }

  /** A refresh keeps the index complete exactly when no other registered pod has the new IP. */
  lemma EvictingWriteCompleteIff<Id>(s: State<Id>, id: Id, ip: string, now: int)
    requires Inv(s) && Complete(s) && id in s.info && s.Registered(id)
    ensures Inv(EvictingWrite(s, id, ip, now))
    ensures Complete(EvictingWrite(s, id, ip, now)) <==> !TakenByOther(s, s.info[id].namespace, s.info[id].name, ip)
  {
    var t, d := EvictingWrite(s, id, ip, now), s.info[id];
    MovedKeeps(s, t, id, ip);
    if ns, name :| s.Has(ns, name) && !(ns == d.namespace && name == d.name) && RecordedIP(s, ns, name) == ip {
      MovedIncomplete(s, t, id, ip, ns, name);
    } else {
      MovedComplete(s, t, id, ip);
    }
  }

  lemma CompleteNext<Id>(t: State<Id>, u: State<Id>, id: Id, d: PodData)
    requires Inv(t) && Complete(t) && id !in t.info && Enrolled(t, u, id, d)
    requires !TakenByOther(t, d.namespace, d.name, d.ip)
    ensures Inv(u) && Complete(u)
  {
    EnrolledKeeps(t, u, id, d);
    EnrolledComplete(t, u, id, d);
  }

  /** The pod is registered as this record, with this IP. */
  ghost predicate Holds<Id>(t: State<Id>, pod: PodRef, id: Id, ip: string) {
    && t.Has(pod.namespace, pod.name) && t.pods[pod.namespace][pod.name] == id
    && id in t.info && t.info[id].ip == ip
  }

  lemma HoldsNext<Id>(t: State<Id>, u: State<Id>, enrolled: Id, d: PodData, pod: PodRef, id: Id, ip: string)
    requires Inv(t) && enrolled !in t.info && Enrolled(t, u, enrolled, d) && Holds(t, pod, id, ip)
    requires pod != PodRef(d.namespace, d.name)
    ensures Inv(u) && Holds(u, pod, id, ip)
  {
    EnrolledKeeps(t, u, enrolled, d);
  }

  /** Cancel leaves the lookup of every pod its request does not list as it was. */
  lemma CancelLeavesOthers<Id>(s: State<Id>, request: string, ns: string, name: string)
    requires Inv(s) && Complete(s) && s.Has(ns, name)
    requires !(request in s.chaos && PodRef(ns, name) in s.chaos[request].pods)
    ensures var t, ip := CancelChaos(s, request), RecordedIP(s, ns, name);
            ip in s.byIP && ip in t.byIP && t.byIP[ip] == s.byIP[ip] == s.pods[ns][name]
  {
    CancelKeeps(s, request);
  }

  // ---------------------------------------------------------------------------------------------
  // Nothing leaks.
  // ---------------------------------------------------------------------------------------------

  /** The request is live and lists the pod. */
  ghost predicate ListedBy<Id>(s: State<Id>, pod: PodRef, request: string) {
    request in s.chaos && pod in s.chaos[request].pods
  }

  /** Every registered pod is listed by some live request. */
  ghost predicate Covered<Id>(s: State<Id>) {
    forall ns, name :: s.Has(ns, name) ==> exists request :: ListedBy(s, PodRef(ns, name), request)
  }

  /** A Set call keeps every pod covered exactly when it re-lists the pods that only the request it
      replaces listed. */
  lemma SetCoveredIff<Id>(s: State<Id>, call: SetCall<Id>)
    requires call.Valid() && Inv(s) && Fresh(s, call) && Covered(s)
    ensures Covered(SetChaos(s, call)) <==> StillListed(s, call.req)
  {
    SetPrefixKeeps(s, call, |call.ids|);
    ListedCoveredIff(s, SetChaos(s, call), call.req, |call.ids|);
  }

  /** The pods the request does not list are listed by some other live request. */
  ghost predicate StillListed<Id>(s: State<Id>, req: Request) {
    forall ns, name :: s.Has(ns, name) && PodRef(ns, name) !in req.pods ==>
      exists request :: request != req.name && ListedBy(s, PodRef(ns, name), request)
  }

  /** The same for any t that is s with the request recorded and its first n pods registered. */
  lemma ListedCoveredIff<Id>(s: State<Id>, t: State<Id>, req: Request, n: nat)
    requires Covered(s) && n <= |req.pods| && t.chaos == s.chaos[req.name := req]
    requires forall ns, name :: t.Has(ns, name) <==> s.Has(ns, name) || PodRef(ns, name) in req.pods[..n]
    ensures Covered(t) <==> StillListed(s, req)
  {
    forall pod: PodRef, request | request != req.name
      ensures ListedBy(t, pod, request) <==> ListedBy(s, pod, request)
    {
    }
    if Covered(t) {
      forall ns, name | s.Has(ns, name) && PodRef(ns, name) !in req.pods
        ensures exists request :: request != req.name && ListedBy(s, PodRef(ns, name), request)
      {
        assert t.Has(ns, name);
        var request :| ListedBy(t, PodRef(ns, name), request);
        assert request != req.name && ListedBy(s, PodRef(ns, name), request);
      }
    }
    if StillListed(s, req) {
      forall ns, name | t.Has(ns, name)
        ensures exists request :: ListedBy(t, PodRef(ns, name), request)
      {
        if PodRef(ns, name) in req.pods {
          assert ListedBy(t, PodRef(ns, name), req.name);
        } else {
          assert s.Has(ns, name);
          var request :| request != req.name && ListedBy(s, PodRef(ns, name), request);
          assert ListedBy(t, PodRef(ns, name), request);
        }
      }
    }
  }

  lemma CancelCovered<Id>(s: State<Id>, name: string)
    requires Inv(s) && Covered(s)
    ensures Covered(CancelChaos(s, name))
  {
    CancelKeeps(s, name);
    CancelledCovered(s, CancelChaos(s, name), name);
  }

  lemma CancelledCovered<Id>(s: State<Id>, t: State<Id>, name: string)
    requires Covered(s) && t.chaos == s.chaos - {name}
    requires forall ns, pod :: t.Has(ns, pod) ==>
               s.Has(ns, pod) && !(name in s.chaos && PodRef(ns, pod) in s.chaos[name].pods)
    ensures Covered(t)
  {
    forall ns, pod | t.Has(ns, pod)
      ensures exists request :: ListedBy(t, PodRef(ns, pod), request)
    {
      var request :| ListedBy(s, PodRef(ns, pod), request);
      assert ListedBy(t, PodRef(ns, pod), request);
    }
  }

  /** Without live requests nothing is registered and no IP leads anywhere. */
  lemma QuiescentEmpty<Id>(s: State<Id>)
    requires Inv(s) && Covered(s) && s.chaos == map[]
    ensures s.pods == map[] && s.byIP == map[]
  {
    forall ns | ns in s.pods
      ensures false
    {
      var name :| name in s.pods[ns];
      assert s.Has(ns, name);
    }
  }
}
