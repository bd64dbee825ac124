/** Runs of the fault registry with the write of a refresh as the program has it. It breaks the
    invariant of the index, but not that of the registered pods. */
module WrittenRuns {
  import opened Objects
  import opened Sequences
  import opened Registry
  import opened RegistryRuns

  // ---------------------------------------------------------------------------------------------
  // What every step keeps even so.
  // ---------------------------------------------------------------------------------------------

  /** Everything the maps mention is a known record, and registered entries carry their keys. */
  ghost predicate PodsKeyed<Id>(s: State<Id>) {
    && Closed(s)
    && forall ns, name :: s.Has(ns, name) ==>
         s.info[s.pods[ns][name]].namespace == ns && s.info[s.pods[ns][name]].name == name
  }

  /** Besides, no namespace is empty. */
  ghost predicate PodsInv<Id>(s: State<Id>) {
    PodsKeyed(s) && forall ns :: ns in s.pods ==> s.pods[ns] != map[]
  }

  lemma InvPods<Id>(s: State<Id>)
    requires Inv(s)
    ensures PodsInv(s)
  {
  }

  /** Old records in the index of t were there in s. */
  ghost predicate OldIndex<Id>(s: State<Id>, t: State<Id>) {
    forall ip :: ip in t.byIP && t.byIP[ip] in s.info ==> ip in s.byIP && s.byIP[ip] == t.byIP[ip]
  }

  /** t is what s becomes once a Set call has registered its first n pods. */
  ghost predicate Arrives<Id>(s: State<Id>, call: SetCall<Id>, n: nat, t: State<Id>)
    requires call.Shaped() && n <= |call.ids|
  {
    ArrivesPods(s, call, n, t) && ArrivesRecords(s, call, n, t)
  }

  ghost predicate ArrivesPods<Id>(s: State<Id>, call: SetCall<Id>, n: nat, t: State<Id>)
    requires call.Shaped() && n <= |call.ids|
  {
    && PodsInv(t) && t.chaos == s.chaos[call.req.name := call.req]
    && forall ns, name :: t.Has(ns, name) <==> s.Has(ns, name) || PodRef(ns, name) in call.req.pods[..n]
  }

  ghost predicate ArrivesRecords<Id>(s: State<Id>, call: SetCall<Id>, n: nat, t: State<Id>)
    requires call.Shaped() && n <= |call.ids|
  {
    && OldIndex(s, t) && s.info.Keys <= t.info.Keys && (forall id :: id in s.info ==> t.info[id] == s.info[id])
    && (forall i :: n <= i < |call.ids| ==> call.ids[i] !in t.info)
    && forall id :: id in t.info && id !in s.info ==> t.info[id].selector.Some?
  }

  lemma EnrolledPods<Id>(s: State<Id>, t: State<Id>, id: Id, d: PodData)
    requires PodsInv(s) && id !in s.info && Enrolled(s, t, id, d)
    ensures PodsInv(t)
  {
  }

  lemma EnrolledIndex<Id>(s: State<Id>, t: State<Id>, u: State<Id>, id: Id, d: PodData)
    requires Closed(t) && OldIndex(s, t) && id !in s.info && Enrolled(t, u, id, d)
    ensures OldIndex(s, u)
  {
  }

  lemma ArrivesPodsNext<Id>(s: State<Id>, call: SetCall<Id>, n: nat, t: State<Id>, u: State<Id>)
    requires call.Shaped() && n < |call.ids| && ArrivesPods(s, call, n, t) && call.ids[n] !in t.info
    requires Enrolled(t, u, call.ids[n], call.Data(n))
    ensures ArrivesPods(s, call, n + 1, u)
  {
    EnrolledPods(t, u, call.ids[n], call.Data(n));
    var before, after := call.req.pods[..n], call.req.pods[..n + 1];
    PrefixNext(call.req.pods, n);
    forall ns, name
      ensures u.Has(ns, name) <==> s.Has(ns, name) || PodRef(ns, name) in after
    {
      assert PodRef(ns, name) in after <==> PodRef(ns, name) in before || PodRef(ns, name) == call.req.pods[n];
    }
  }

  lemma ArrivesRecordsNext<Id>(s: State<Id>, call: SetCall<Id>, n: nat, t: State<Id>, u: State<Id>)
    requires call.Shaped() && n < |call.ids| && Fresh(s, call) && Closed(t) && ArrivesRecords(s, call, n, t)
    requires Enrolled(t, u, call.ids[n], call.Data(n))
    ensures ArrivesRecords(s, call, n + 1, u)
  {
    EnrolledIndex(s, t, u, call.ids[n], call.Data(n));
  }

  lemma ArrivesNext<Id>(s: State<Id>, call: SetCall<Id>, n: nat, t: State<Id>, u: State<Id>)
    requires call.Shaped() && n < |call.ids| && Fresh(s, call) && Arrives(s, call, n, t)
    requires Enrolled(t, u, call.ids[n], call.Data(n))
    ensures Arrives(s, call, n + 1, u)
  {
    ArrivesPodsNext(s, call, n, t, u);
    ArrivesRecordsNext(s, call, n, t, u);
  }

  lemma ArrivesNone<Id>(s: State<Id>, call: SetCall<Id>)
    requires call.Shaped() && PodsInv(s) && Fresh(s, call)
    ensures Arrives(s, call, 0, SetPrefix(s, call, 0))
  {
    var t := SetPrefix(s, call, 0);
    assert forall ns, name :: t.Has(ns, name) <==> s.Has(ns, name);
  }

  lemma ArrivesStep<Id>(s: State<Id>, call: SetCall<Id>, n: nat, t: State<Id>, u: State<Id>)
    requires call.Shaped() && n < |call.ids| && Fresh(s, call) && Arrives(s, call, n, t)
    requires t == SetPrefix(s, call, n) && u == SetPrefix(s, call, n + 1)
    ensures Arrives(s, call, n + 1, u)
  {
    SetPrefixNext(s, call, n);
    ArrivesNext(s, call, n, t, u);
  }

  lemma {:induction false} SetPrefixArrives<Id>(s: State<Id>, call: SetCall<Id>, n: nat)
    requires call.Shaped() && n <= |call.ids| && PodsInv(s) && Fresh(s, call)
    ensures Arrives(s, call, n, SetPrefix(s, call, n))
  {
    if n > 0 {
      SetPrefixArrives(s, call, n - 1);
      ArrivesStep(s, call, n - 1, SetPrefix(s, call, n - 1), SetPrefix(s, call, n));
    } else {
      ArrivesNone(s, call);
    }
  }

  /** t is s without these pods. */
  ghost predicate Sheds<Id>(s: State<Id>, pods: seq<PodRef>, t: State<Id>) {
    && PodsKeyed(t) && OldIndex(s, t) && t.info == s.info && t.chaos == s.chaos
    && (forall ns, name :: t.Has(ns, name) <==> s.Has(ns, name) && PodRef(ns, name) !in pods)
    && forall ns, name :: t.Has(ns, name) ==> t.pods[ns][name] == s.pods[ns][name]
  }

  lemma ShedsNext<Id>(s: State<Id>, pods: seq<PodRef>, t: State<Id>, u: State<Id>, pod: PodRef)
    requires Sheds(s, pods, t) && Dropped(t, u, pod)
    ensures Sheds(s, pods + [pod], u)
  {
  }

  lemma {:induction false} DropAllSheds<Id>(s: State<Id>, pods: seq<PodRef>)
    requires PodsKeyed(s)
    ensures Sheds(s, pods, DropAll(s, pods))
  {
    if pods != [] {
      var n := |pods| - 1;
      DropAllSheds(s, pods[..n]);
      DropAllNext(s, pods);
      assert pods == pods[..n] + [pods[n]];
      ShedsNext(s, pods[..n], DropAll(s, pods[..n]), DropAll(s, pods), pods[n]);
    }
  }

  lemma PrunePods<Id>(s: State<Id>, name: string)
    requires PodsKeyed(s)
    ensures var t := Prune(s).(chaos := s.chaos - {name});
            PodsInv(t) && forall ns, pod :: t.Has(ns, pod) <==> s.Has(ns, pod)
  {
    var t := Prune(s).(chaos := s.chaos - {name});
    assert forall ns, pod :: t.Has(ns, pod) <==> s.Has(ns, pod);
  }

  lemma CancelPods<Id>(s: State<Id>, name: string)
    requires PodsInv(s)
    ensures PodsInv(CancelChaos(s, name)) && OldIndex(s, CancelChaos(s, name))
    ensures CancelChaos(s, name).info == s.info && CancelChaos(s, name).chaos == s.chaos - {name}
    ensures forall ns, pod :: CancelChaos(s, name).Has(ns, pod) <==>
              s.Has(ns, pod) && !(name in s.chaos && PodRef(ns, pod) in s.chaos[name].pods)
  {
    if name in s.chaos {
      DropAllSheds(s, s.chaos[name].pods);
      PrunePods(DropAll(s, s.chaos[name].pods), name);
    } else {
      assert s.chaos - {name} == s.chaos;
    }
  }

  lemma WrittenPods<Id>(s: State<Id>, id: Id, ip: string, now: int)
    requires PodsInv(s) && id in s.info
    ensures PodsInv(WrittenWrite(s, id, ip, now))
  {
    var t := WrittenWrite(s, id, ip, now);
    assert forall ns, name :: t.Has(ns, name) <==> s.Has(ns, name);
  }

  // ---------------------------------------------------------------------------------------------
  // Runs
  // ---------------------------------------------------------------------------------------------

  ghost predicate WrittenInv<Id>(m: Machine<Id>) {
    PodsInv(m.state) && forall p :: p in m.pending ==> p.0 in m.state.info
  }

  /** The step of the program: only the write of a refresh differs from the intended one. */
  ghost function WrittenStep<Id>(m: Machine<Id>, e: Event<Id>): Machine<Id>
    requires WrittenInv(m) && Enabled(m, e)
  {
    match e
    case Set(call) => m.(state := SetChaos(m.state, call))
    case Cancel(name) => m.(state := CancelChaos(m.state, name))
    case BeginRefresh(ip, lookup, now) =>
      var due := RefreshDue(m.state, ip, lookup, now);
      if due.Some? then m.(pending := m.pending + {(due.value, lookup.value)}) else m
    case FinishRefresh(id, newIP, at) =>
      Machine(WrittenWrite(m.state, id, newIP, at), m.pending - {(id, newIP)})
  }

  lemma WrittenStepKeeps<Id>(m: Machine<Id>, e: Event<Id>)
    requires WrittenInv(m) && Enabled(m, e)
    ensures WrittenInv(WrittenStep(m, e))
  {
    match e
    case Set(call) => SetPrefixArrives(m.state, call, |call.ids|);
    case Cancel(name) => CancelPods(m.state, name);
    case BeginRefresh(_, _, _) =>
    case FinishRefresh(id, newIP, at) => WrittenPods(m.state, id, newIP, at);
  }

  ghost predicate ValidWritten<Id>(m: Machine<Id>, events: seq<Event<Id>>)
    requires WrittenInv(m)
    decreases |events|
  {
    events != [] ==>
      && Enabled(m, events[0])
      && (WrittenStepKeeps(m, events[0]); ValidWritten(WrittenStep(m, events[0]), events[1..]))
  }

  ghost function WrittenRun<Id>(m: Machine<Id>, events: seq<Event<Id>>): Machine<Id>
    requires WrittenInv(m) && ValidWritten(m, events)
    decreases |events|
  {
    if events == [] then m
    else (WrittenStepKeeps(m, events[0]); WrittenRun(WrittenStep(m, events[0]), events[1..]))
  }

  lemma {:induction false} WrittenRunKeeps<Id>(m: Machine<Id>, events: seq<Event<Id>>)
    requires WrittenInv(m) && ValidWritten(m, events)
    ensures WrittenInv(WrittenRun(m, events))
    decreases |events|
  {
    if events != [] {
      WrittenStepKeeps(m, events[0]);
      WrittenRunKeeps(WrittenStep(m, events[0]), events[1..]);
    }
  }

  // ---------------------------------------------------------------------------------------------
  // No pod leaks, but IPs do.
  // ---------------------------------------------------------------------------------------------

  ghost predicate RelistingWritten<Id>(m: Machine<Id>, events: seq<Event<Id>>)
    requires WrittenInv(m) && ValidWritten(m, events)
    decreases |events|
  {
    events != [] ==>
      && Relists(m, events[0])
      && (WrittenStepKeeps(m, events[0]); RelistingWritten(WrittenStep(m, events[0]), events[1..]))
  }

  lemma WrittenStepCovered<Id>(m: Machine<Id>, e: Event<Id>)
    requires WrittenInv(m) && Enabled(m, e) && Relists(m, e) && Covered(m.state)
    ensures Covered(WrittenStep(m, e).state)
  {
    match e
    case Set(call) =>
      RelistedStill(m, call);
      SetPrefixArrives(m.state, call, |call.ids|);
      ListedCoveredIff(m.state, SetChaos(m.state, call), call.req, |call.ids|);
    case Cancel(name) =>
      CancelPods(m.state, name);
      CancelledCovered(m.state, CancelChaos(m.state, name), name);
    case BeginRefresh(_, _, _) =>
    case FinishRefresh(id, newIP, at) => WriteCovered(m.state, WrittenWrite(m.state, id, newIP, at));
  }

  /** Of the registered pods none leaks: when the last request is cancelled no pod is left. */
  lemma {:induction false} WrittenRunCovered<Id>(m: Machine<Id>, events: seq<Event<Id>>)
    requires WrittenInv(m) && ValidWritten(m, events) && RelistingWritten(m, events) && Covered(m.state)
    ensures Covered(WrittenRun(m, events).state)
    ensures WrittenRun(m, events).state.chaos == map[] ==> WrittenRun(m, events).state.pods == map[]
    decreases |events|
  {
    if events != [] {
      WrittenStepKeeps(m, events[0]);
      WrittenStepCovered(m, events[0]);
      WrittenRunCovered(WrittenStep(m, events[0]), events[1..]);
    } else if m.state.chaos == map[] {
      QuiescentPods(m.state);
    }
  }

  lemma QuiescentPods<Id>(s: State<Id>)
    requires PodsInv(s) && Covered(s) && s.chaos == map[]
    ensures s.pods == map[]
  {
    forall ns | ns in s.pods
      ensures false
    {
      var name :| name in s.pods[ns];
      assert s.Has(ns, name);
    }
  }

  /** Dropping pods leaves an index entry alone that none of them has on record. */
  lemma {:induction false} DropAllSpares<Id>(s: State<Id>, pods: seq<PodRef>, ip: string)
    requires PodsKeyed(s) && ip in s.byIP
    requires forall ns, name :: s.Has(ns, name) ==> RecordedIP(s, ns, name) != ip
    ensures ip in DropAll(s, pods).byIP && DropAll(s, pods).byIP[ip] == s.byIP[ip]
  {
    if pods != [] {
      var n := |pods| - 1;
      DropAllSpares(s, pods[..n], ip);
      DropAllSheds(s, pods[..n]);
      DropAllNext(s, pods);
      DropSpares(s, DropAll(s, pods[..n]), DropAll(s, pods), pods[..n], pods[n], ip);
    }
  }

  lemma DropSpares<Id>(s: State<Id>, t: State<Id>, u: State<Id>, pods: seq<PodRef>, pod: PodRef, ip: string)
    requires PodsKeyed(s) && Sheds(s, pods, t) && Dropped(t, u, pod) && ip in t.byIP
    requires forall ns, name :: s.Has(ns, name) ==> RecordedIP(s, ns, name) != ip
    ensures ip in u.byIP && u.byIP[ip] == t.byIP[ip]
  {
    if t.Has(pod.namespace, pod.name) {
      assert s.Has(pod.namespace, pod.name);
      assert RecordedIP(t, pod.namespace, pod.name) != ip;
    }
  }

  lemma RefreshPods<Id>(s: State<Id>, ip: string, lookup: Option<string>, now: int)
    requires PodsInv(s)
    ensures var u := WrittenRefresh(s, ip, lookup, now);
            PodsInv(u) && u.pods == s.pods && u.chaos == s.chaos
  {
    var due := RefreshDue(s, ip, lookup, now);
    if due.Some? {
      WrittenPods(s, due.value, lookup.value, now);
    }
  }

  /** Cancelling the only request leaves no pod. */
  lemma LastCancel<Id>(s: State<Id>, request: string)
    requires PodsInv(s) && Covered(s) && s.chaos.Keys == {request}
    ensures CancelChaos(s, request).pods == map[] && CancelChaos(s, request).chaos == map[]
  {
    var t := CancelChaos(s, request);
    CancelPods(s, request);
    CancelledCovered(s, t, request);
    assert t.chaos == map[];
    QuiescentPods(t);
  }

  /** After a refresh that writes, the old IP is on record for no registered pod, yet indexed. */
  lemma MovedAway<Id>(s: State<Id>, ip: string, lookup: Option<string>, now: int)
    requires Inv(s) && Complete(s) && RefreshDue(s, ip, lookup, now).Some?
    ensures var u := WrittenRefresh(s, ip, lookup, now);
            && Closed(u) && ip in u.byIP && u.byIP[ip] == s.byIP[ip]
            && forall ns, name :: u.Has(ns, name) ==> RecordedIP(u, ns, name) != ip
  {
    InvPods(s);
    RefreshPods(s, ip, lookup, now);
    var u, id := WrittenRefresh(s, ip, lookup, now), s.byIP[ip];
    forall ns, name | u.Has(ns, name)
      ensures RecordedIP(u, ns, name) != ip
    {
      assert s.Has(ns, name);
      if s.pods[ns][name] != id {
        assert RecordedIP(u, ns, name) == RecordedIP(s, ns, name);
      }
    }
  }

  /** When the only request is cancelled after a refresh, no pod and no request is left, but the index
      is empty only if the refresh had nothing to write: otherwise the old IP still leads to the
      record of the cancelled pod. */
  lemma IndexAfterLastCancel<Id>(s: State<Id>, ip: string, lookup: Option<string>, now: int, request: string)
    requires Inv(s) && Complete(s) && Covered(s) && s.chaos.Keys == {request}
    ensures var t := CancelChaos(WrittenRefresh(s, ip, lookup, now), request);
            && t.pods == map[] && t.chaos == map[]
            && (t.byIP == map[] <==> RefreshDue(s, ip, lookup, now).None?)
            && (RefreshDue(s, ip, lookup, now).Some? ==> ip in t.byIP && t.byIP[ip] == s.byIP[ip])
  {
    var u := WrittenRefresh(s, ip, lookup, now);
    InvPods(s);
    RefreshPods(s, ip, lookup, now);
    WriteCovered(s, u);
    LastCancel(u, request);
    if RefreshDue(s, ip, lookup, now).Some? {
      MovedAway(s, ip, lookup, now);
      DropAllSpares(u, u.chaos[request].pods, ip);
    } else {
      CancelKeeps(s, request);
      CancelCovered(s, request);
      QuiescentEmpty(CancelChaos(s, request));
    }
  }
}
