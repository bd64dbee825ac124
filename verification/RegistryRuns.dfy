/** Whole runs of the fault registry: start-up seeding, then Set, Cancel and two-phase refreshes in
    any interleaving. */
module RegistryRuns {
  import opened Objects
  import opened Sequences
  import opened Registry
  import opened RegistrySets

  // ---------------------------------------------------------------------------------------------
  // Start-up
  // ---------------------------------------------------------------------------------------------

  /** The registry as the configuration file leaves it: pods, but no IPs yet. */
  ghost predicate Configured<Id>(s: State<Id>) {
    Inv(s) && s.byIP == map[] && s.chaos == map[]
  }

  function SeedPod<Id>(s: State<Id>, pod: PodRef, ip: string, now: int): State<Id>
    requires s.Has(pod.namespace, pod.name) && s.pods[pod.namespace][pod.name] in s.info
  {
    var id := s.pods[pod.namespace][pod.name];
    s.(info := s.info[id := Relocated(s.info[id], ip, now)], byIP := s.byIP[ip := id])
  }

  /** The pods are visited once each, in some order. */
  ghost predicate VisitOrder<Id>(s: State<Id>, order: seq<PodRef>) {
    && (forall i :: 0 <= i < |order| ==>
          s.Has(order[i].namespace, order[i].name) && s.pods[order[i].namespace][order[i].name] in s.info)
    && (forall i, j :: 0 <= i < j < |order| ==> order[i] != order[j])
  }

  /** What seeding the first n pods leaves, given the IPs the cluster reports for them. */
  function SeedPrefix<Id>(s: State<Id>, order: seq<PodRef>, ips: PodRef -> string, now: int, n: nat): (t: State<Id>)
    requires VisitOrder(s, order) && n <= |order|
    ensures t.pods == s.pods && t.chaos == s.chaos && t.info.Keys == s.info.Keys
  {
    if n == 0 then s
    else
      var t := SeedPrefix(s, order, ips, now, n - 1);
      assert forall ns, name :: t.Has(ns, name) <==> s.Has(ns, name);
      SeedPod(t, order[n - 1], ips(order[n - 1]), now)
  }

  /** The pod a record is for. */
  function PodOf(d: PodData): PodRef {
    PodRef(d.namespace, d.name)
  }

  /** Only visited pods are indexed, under the IPs the cluster reported, which are on record. */
  ghost predicate Seeded<Id>(t: State<Id>, visited: seq<PodRef>, ips: PodRef -> string) {
    && Inv(t)
    && (forall ip :: ip in t.byIP ==> PodOf(t.info[t.byIP[ip]]) in visited && ips(PodOf(t.info[t.byIP[ip]])) == ip)
    && (forall pod :: pod in visited ==>
          t.Has(pod.namespace, pod.name) && RecordedIP(t, pod.namespace, pod.name) == ips(pod) && ips(pod) in t.byIP)
  }

  lemma SeededNext<Id>(t: State<Id>, u: State<Id>, visited: seq<PodRef>, pod: PodRef, ips: PodRef -> string)
    requires Seeded(t, visited, ips) && pod !in visited && t.Has(pod.namespace, pod.name)
    requires MovedAsWritten(t, u, t.pods[pod.namespace][pod.name], ips(pod))
    ensures Inv(u)
  {
    var id := t.pods[pod.namespace][pod.name];
    assert PodOf(t.info[id]) == pod;
    assert !IndexedByOwnIP(t, id);
    MovedIff(t, u, id, ips(pod));
  }

  lemma SeededIndex<Id>(t: State<Id>, u: State<Id>, visited: seq<PodRef>, pod: PodRef, ips: PodRef -> string,
                        ip: string)
    requires Seeded(t, visited, ips) && t.Has(pod.namespace, pod.name)
    requires MovedAsWritten(t, u, t.pods[pod.namespace][pod.name], ips(pod)) && Inv(u) && ip in u.byIP
    ensures PodOf(u.info[u.byIP[ip]]) == pod || PodOf(u.info[u.byIP[ip]]) in visited
    ensures ips(PodOf(u.info[u.byIP[ip]])) == ip
  {
    var id := t.pods[pod.namespace][pod.name];
    assert PodOf(t.info[id]) == pod && PodOf(u.info[id]) == pod;
    if ip != ips(pod) {
      assert ip in t.byIP && u.byIP[ip] == t.byIP[ip];
    }
  }

  lemma RecordKept<Id>(t: State<Id>, u: State<Id>, id: Id, ip: string, ns: string, name: string)
    requires LooseInv(t) && id in t.info && MovedAsWritten(t, u, id, ip) && t.Has(ns, name)
    ensures u.Has(ns, name) && u.pods[ns][name] in u.info
    ensures RecordedIP(u, ns, name) == if t.pods[ns][name] == id then ip else RecordedIP(t, ns, name)
    ensures forall x :: x in t.byIP ==> x in u.byIP
  {
    var x := t.pods[ns][name];
    assert x in t.info && u.pods == t.pods;
    assert x != id ==> u.info[x] == t.info[x];
  }

  lemma SeededRecord<Id>(t: State<Id>, u: State<Id>, visited: seq<PodRef>, pod: PodRef, ips: PodRef -> string,
                         p: PodRef)
    requires Seeded(t, visited, ips) && t.Has(pod.namespace, pod.name)
    requires MovedAsWritten(t, u, t.pods[pod.namespace][pod.name], ips(pod)) && Inv(u) && (p in visited || p == pod)
    ensures u.Has(p.namespace, p.name) && RecordedIP(u, p.namespace, p.name) == ips(p) && ips(p) in u.byIP
  {
    var id := t.pods[pod.namespace][pod.name];
    assert t.Has(p.namespace, p.name);
    RecordKept(t, u, id, ips(pod), p.namespace, p.name);
    if p != pod {
      assert t.pods[p.namespace][p.name] != id;
    }
  }

  lemma SeededMore<Id>(t: State<Id>, u: State<Id>, visited: seq<PodRef>, pod: PodRef, ips: PodRef -> string)
    requires Seeded(t, visited, ips) && pod !in visited && t.Has(pod.namespace, pod.name)
    requires MovedAsWritten(t, u, t.pods[pod.namespace][pod.name], ips(pod)) && Inv(u)
    ensures Seeded(u, visited + [pod], ips)
  {
    forall ip | ip in u.byIP
      ensures PodOf(u.info[u.byIP[ip]]) in visited + [pod] && ips(PodOf(u.info[u.byIP[ip]])) == ip
    {
      SeededIndex(t, u, visited, pod, ips, ip);
    }
    forall p | p in visited + [pod]
      ensures u.Has(p.namespace, p.name) && RecordedIP(u, p.namespace, p.name) == ips(p) && ips(p) in u.byIP
    {
      SeededRecord(t, u, visited, pod, ips, p);
    }
  }

  /** The states seeding passes through, one more pod seeded at each. */
  ghost predicate SeedTraces<Id>(trace: seq<State<Id>>, order: seq<PodRef>, ips: PodRef -> string) {
    |trace| == |order| + 1 && forall i :: 0 <= i < |order| ==> SeedsAt(trace, order, ips, i)
  }

  /** The registered record of pod i, not visited before, moves to its IP. */
  ghost predicate SeedsAt<Id>(trace: seq<State<Id>>, order: seq<PodRef>, ips: PodRef -> string, i: nat)
    requires i < |order| && |trace| == |order| + 1
  {
    var t, pod := trace[i], order[i];
    && pod !in order[..i] && t.Has(pod.namespace, pod.name)
    && t.pods[pod.namespace][pod.name] in t.info
    && MovedAsWritten(t, trace[i + 1], t.pods[pod.namespace][pod.name], ips(pod))
  }

  lemma SeedTrace<Id>(s: State<Id>, order: seq<PodRef>, ips: PodRef -> string, now: int)
    returns (trace: seq<State<Id>>)
    requires VisitOrder(s, order)
    ensures SeedTraces(trace, order, ips)
    ensures forall i :: 0 <= i <= |order| ==> trace[i] == SeedPrefix(s, order, ips, now, i)
  {
    trace := seq(|order| + 1, i requires 0 <= i <= |order| => SeedPrefix(s, order, ips, now, i));
    forall i | 0 <= i < |order|
      ensures SeedsAt(trace, order, ips, i)
    {
      SeedPrefixNext(s, order, ips, now, trace, i);
    }
  }

  lemma SeedPrefixNext<Id>(s: State<Id>, order: seq<PodRef>, ips: PodRef -> string, now: int, trace: seq<State<Id>>,
                           n: nat)
    requires VisitOrder(s, order) && n < |order| && |trace| == |order| + 1
    requires trace[n] == SeedPrefix(s, order, ips, now, n) && trace[n + 1] == SeedPrefix(s, order, ips, now, n + 1)
    ensures SeedsAt(trace, order, ips, n)
  {
    var t := trace[n];
    assert t.pods == s.pods && t.info.Keys == s.info.Keys;
  }

  lemma SeededNone<Id>(s: State<Id>, ips: PodRef -> string)
    requires Configured(s)
    ensures Seeded(s, [], ips)
  {
  }

  lemma SeededStep<Id>(trace: seq<State<Id>>, order: seq<PodRef>, ips: PodRef -> string, i: nat)
    requires i < |order| && |trace| == |order| + 1 && SeedsAt(trace, order, ips, i)
    requires Seeded(trace[i], order[..i], ips)
    ensures Seeded(trace[i + 1], order[..i + 1], ips)
  {
    SeededNext(trace[i], trace[i + 1], order[..i], order[i], ips);
    SeededMore(trace[i], trace[i + 1], order[..i], order[i], ips);
    PrefixNext(order, i);
  }

  lemma TraceSeeded<Id>(trace: seq<State<Id>>, order: seq<PodRef>, ips: PodRef -> string, n: nat)
    requires SeedTraces(trace, order, ips) && Seeded(trace[0], [], ips) && n <= |order|
    ensures Seeded(trace[n], order[..n], ips)
  {
    var holds := (i: int, t: State<Id>) => 0 <= i <= |order| && Seeded(t, order[..i], ips);
    forall i | 0 <= i < |trace| - 1 && holds(i, trace[i])
      ensures holds(i + 1, trace[i + 1])
    {
      assert SeedsAt(trace, order, ips, i);
      SeededStep(trace, order, ips, i);
    }
    assert order[..0] == [];
    Carried(holds, trace, n);
  }

  /** Seeding keeps the invariant, even when it stops part-way. */
  lemma SeedKeeps<Id>(s: State<Id>, order: seq<PodRef>, ips: PodRef -> string, now: int, n: nat)
    requires Configured(s) && VisitOrder(s, order) && n <= |order|
    ensures Seeded(SeedPrefix(s, order, ips, now, n), order[..n], ips)
  {
    SeededNone(s, ips);
    var trace := SeedTrace(s, order, ips, now);
    TraceSeeded(trace, order, ips, n);
  }

  /** Every registered pod is visited. */
  ghost predicate VisitsAll<Id>(s: State<Id>, order: seq<PodRef>) {
    forall ns, name :: s.Has(ns, name) ==> PodRef(ns, name) in order
  }

  /** Once all pods are seeded, the index is complete exactly when no two of them share an IP. */
  lemma SeedCompleteIff<Id>(s: State<Id>, order: seq<PodRef>, ips: PodRef -> string, now: int)
    requires Configured(s) && VisitOrder(s, order) && VisitsAll(s, order)
    ensures Inv(SeedPrefix(s, order, ips, now, |order|))
    ensures Complete(SeedPrefix(s, order, ips, now, |order|)) <==>
            forall i, j :: 0 <= i < j < |order| ==> ips(order[i]) != ips(order[j])
  {
    var t := SeedPrefix(s, order, ips, now, |order|);
    SeedKeeps(s, order, ips, now, |order|);
    assert order[..|order|] == order;
    assert forall ns, name :: t.Has(ns, name) <==> s.Has(ns, name);
    if i, j :| 0 <= i < j < |order| && ips(order[i]) == ips(order[j]) {
      SharedIncomplete(t, order, ips, i, j);
    } else {
      DistinctComplete(t, order, ips);
    }
  }

  lemma SharedIncomplete<Id>(t: State<Id>, order: seq<PodRef>, ips: PodRef -> string, i: nat, j: nat)
    requires Seeded(t, order, ips) && i < j < |order| && order[i] != order[j] && ips(order[i]) == ips(order[j])
    ensures !Complete(t)
  {
    var a, b := order[i], order[j];
    assert t.Has(a.namespace, a.name) && t.Has(b.namespace, b.name);
    assert RecordedIP(t, a.namespace, a.name) == RecordedIP(t, b.namespace, b.name);
    assert PodOf(t.info[t.pods[a.namespace][a.name]]) == a && PodOf(t.info[t.pods[b.namespace][b.name]]) == b;
  }

  lemma DistinctComplete<Id>(t: State<Id>, order: seq<PodRef>, ips: PodRef -> string)
    requires Seeded(t, order, ips) && VisitsAll(t, order)
    requires forall i, j :: 0 <= i < j < |order| ==> ips(order[i]) != ips(order[j])
    ensures Complete(t)
  {
    forall ns, name | t.Has(ns, name)
      ensures RecordedIP(t, ns, name) in t.byIP && t.byIP[RecordedIP(t, ns, name)] == t.pods[ns][name]
    {
      var pod := PodRef(ns, name);
      assert pod in order;
      var i :| 0 <= i < |order| && order[i] == pod;
      var id := t.byIP[ips(pod)];
      var other := PodOf(t.info[id]);
      assert other in order && ips(other) == ips(pod);
      var j :| 0 <= j < |order| && order[j] == other;
      assert i == j;
      assert t.Registered(id);
    }
  }

  // ---------------------------------------------------------------------------------------------
  // Runs
  // ---------------------------------------------------------------------------------------------

  /** The registry with the refreshes whose read is done and whose write is still to come. */
  datatype Machine<Id(==)> = Machine(state: State<Id>, pending: set<(Id, string)>)

  datatype Event<Id> =
    | Set(call: SetCall<Id>)
    | Cancel(name: string)
    | BeginRefresh(ip: string, lookup: Option<string>, now: int)
    | FinishRefresh(id: Id, newIP: string, at: int)

  ghost predicate MachineInv<Id>(m: Machine<Id>) {
    Inv(m.state) && forall p :: p in m.pending ==> p.0 in m.state.info
  }

  ghost predicate Enabled<Id>(m: Machine<Id>, e: Event<Id>) {
    match e
    case Set(call) => call.Valid() && Fresh(m.state, call)
    case FinishRefresh(id, newIP, _) => (id, newIP) in m.pending
    case _ => true
  }

  ghost function Step<Id>(m: Machine<Id>, e: Event<Id>): Machine<Id>
    requires MachineInv(m) && Enabled(m, e)
  {
    match e
    case Set(call) => m.(state := SetChaos(m.state, call))
    case Cancel(name) => m.(state := CancelChaos(m.state, name))
    case BeginRefresh(ip, lookup, now) =>
      var due := RefreshDue(m.state, ip, lookup, now);
      if due.Some? then m.(pending := m.pending + {(due.value, lookup.value)}) else m
    case FinishRefresh(id, newIP, at) =>
      Machine(EvictingWrite(m.state, id, newIP, at), m.pending - {(id, newIP)})
  }

  lemma StepKeeps<Id>(m: Machine<Id>, e: Event<Id>)
    requires MachineInv(m) && Enabled(m, e)
    ensures MachineInv(Step(m, e))
  {
    match e
    case Set(call) => SetPrefixKeeps(m.state, call, |call.ids|);
    case Cancel(name) => CancelKeeps(m.state, name);
    case BeginRefresh(_, _, _) =>
    case FinishRefresh(id, newIP, at) => EvictingWriteKeeps(m.state, id, newIP, at);
  }

  /** Every event of the run is possible where it happens. */
  ghost predicate ValidRun<Id>(m: Machine<Id>, events: seq<Event<Id>>)
    requires MachineInv(m)
    decreases |events|
  {
    events != [] ==>
      && Enabled(m, events[0])
      && (StepKeeps(m, events[0]); ValidRun(Step(m, events[0]), events[1..]))
  }

  ghost function Run<Id>(m: Machine<Id>, events: seq<Event<Id>>): Machine<Id>
    requires MachineInv(m) && ValidRun(m, events)
    decreases |events|
  {
    if events == [] then m else (StepKeeps(m, events[0]); Run(Step(m, events[0]), events[1..]))
  }

  /** The invariant holds after every run, however Sets, Cancels and the two phases of refreshes are
      interleaved, and whichever Sets fail part-way. */
  lemma {:induction false} RunKeeps<Id>(m: Machine<Id>, events: seq<Event<Id>>)
    requires MachineInv(m) && ValidRun(m, events)
    ensures MachineInv(Run(m, events))
    decreases |events|
  {
    if events != [] {
      StepKeeps(m, events[0]);
      RunKeeps(Step(m, events[0]), events[1..]);
    }
  }

  /** No event gives a pod an IP that another registered pod has on record at that moment. */
  ghost predicate Unshares<Id>(m: Machine<Id>, e: Event<Id>)
    requires MachineInv(m) && Enabled(m, e)
  {
    match e
    case Set(call) => Unshared(m.state, call)
    case FinishRefresh(id, newIP, _) =>
      m.state.Registered(id) ==> !TakenByOther(m.state, m.state.info[id].namespace, m.state.info[id].name, newIP)
    case _ => true
  }

  ghost predicate UnsharedRun<Id>(m: Machine<Id>, events: seq<Event<Id>>)
    requires MachineInv(m) && ValidRun(m, events)
    decreases |events|
  {
    events != [] ==>
      && Unshares(m, events[0])
      && (StepKeeps(m, events[0]); UnsharedRun(Step(m, events[0]), events[1..]))
  }

  lemma StepComplete<Id>(m: Machine<Id>, e: Event<Id>)
    requires MachineInv(m) && Enabled(m, e) && Unshares(m, e) && Complete(m.state)
    ensures MachineInv(Step(m, e)) && Complete(Step(m, e).state)
  {
    StepKeeps(m, e);
    match e
    case Set(call) => SetComplete(m.state, call);
    case Cancel(name) => CancelKeeps(m.state, name);
    case BeginRefresh(_, _, _) =>
    case FinishRefresh(id, newIP, at) =>
      if m.state.Registered(id) {
        EvictingWriteCompleteIff(m.state, id, newIP, at);
      }
  }

  /** If IPs are never shared, the index stays the exact inverse of the recorded IPs. */
  lemma {:induction false} RunComplete<Id>(m: Machine<Id>, events: seq<Event<Id>>)
    requires MachineInv(m) && ValidRun(m, events) && UnsharedRun(m, events) && Complete(m.state)
    ensures Inv(Run(m, events).state) && Complete(Run(m, events).state)
    ensures forall ip :: ip in Run(m, events).state.byIP <==>
              exists ns, name :: Run(m, events).state.Has(ns, name) && RecordedIP(Run(m, events).state, ns, name) == ip
    decreases |events|
  {
    if events != [] {
      StepComplete(m, events[0]);
      RunComplete(Step(m, events[0]), events[1..]);
    } else {
      forall ip {
        LookupIsSearch(m.state, ip);
      }
    }
  }

  /** Sets use a new name, or list at least the pods of the request they replace. */
  ghost predicate Relists<Id>(m: Machine<Id>, e: Event<Id>) {
    e.Set? && e.call.req.name in m.state.chaos ==>
      forall pod :: pod in m.state.chaos[e.call.req.name].pods ==> pod in e.call.req.pods
  }

  ghost predicate RelistingRun<Id>(m: Machine<Id>, events: seq<Event<Id>>)
    requires MachineInv(m) && ValidRun(m, events)
    decreases |events|
  {
    events != [] ==>
      && Relists(m, events[0])
      && (StepKeeps(m, events[0]); RelistingRun(Step(m, events[0]), events[1..]))
  }

  lemma RelistedStill<Id>(m: Machine<Id>, call: SetCall<Id>)
    requires Relists(m, Set(call)) && Covered(m.state)
    ensures StillListed(m.state, call.req)
  {
    forall ns, name | m.state.Has(ns, name) && PodRef(ns, name) !in call.req.pods
      ensures exists request :: request != call.req.name && ListedBy(m.state, PodRef(ns, name), request)
    {
      var request :| ListedBy(m.state, PodRef(ns, name), request);
      assert request != call.req.name;
    }
  }

  lemma StepCovered<Id>(m: Machine<Id>, e: Event<Id>)
    requires MachineInv(m) && Enabled(m, e) && Relists(m, e) && Covered(m.state)
    ensures Covered(Step(m, e).state)
  {
    match e
    case Set(call) =>
      RelistedStill(m, call);
      SetCoveredIff(m.state, call);
    case Cancel(name) => CancelCovered(m.state, name);
    case BeginRefresh(_, _, _) =>
    case FinishRefresh(id, newIP, at) => WriteCovered(m.state, EvictingWrite(m.state, id, newIP, at));
  }

  lemma WriteCovered<Id>(s: State<Id>, t: State<Id>)
    requires Covered(s) && t.pods == s.pods && t.chaos == s.chaos
    ensures Covered(t)
  {
    forall ns, name | t.Has(ns, name)
      ensures exists request :: ListedBy(t, PodRef(ns, name), request)
    {
      assert s.Has(ns, name);
      var request :| ListedBy(s, PodRef(ns, name), request);
      assert ListedBy(t, PodRef(ns, name), request);
    }
  }

  /** Nothing leaks: every registered pod stays listed by a live request, so when the last request is
      cancelled no pod and no IP is left, even if some Sets failed part-way. */
  lemma {:induction false} RunCovered<Id>(m: Machine<Id>, events: seq<Event<Id>>)
    requires MachineInv(m) && ValidRun(m, events) && RelistingRun(m, events) && Covered(m.state)
    ensures Covered(Run(m, events).state)
    ensures var s := Run(m, events).state;
            s.chaos == map[] ==> s.pods == map[] && s.byIP == map[]
    decreases |events|
  {
    if events != [] {
      StepKeeps(m, events[0]);
      StepCovered(m, events[0]);
      RunCovered(Step(m, events[0]), events[1..]);
    } else if m.state.chaos == map[] {
      QuiescentEmpty(m.state);
    }
  }

  // ---------------------------------------------------------------------------------------------
  // The write as written, under interleaving.
  // ---------------------------------------------------------------------------------------------

  /** If the pod is cancelled between the read and the write, the write as written revives an IP
      that leads to a record no longer registered; the intended write does nothing. */
  lemma WriteAfterCancel<Id>(s: State<Id>, request: string, id: Id, ip: string, now: int)
    requires Inv(s) && id in s.info && s.Registered(id)
    requires request in s.chaos && PodOf(s.info[id]) in s.chaos[request].pods
    ensures var t := CancelChaos(s, request);
            && Inv(t) && id in t.info && !t.Registered(id)
            && !Inv(WrittenWrite(t, id, ip, now))
            && ip in WrittenWrite(t, id, ip, now).byIP && WrittenWrite(t, id, ip, now).byIP[ip] == id
            && EvictingWrite(t, id, ip, now) == t
  {
    var t := CancelChaos(s, request);
    CancelKeeps(s, request);
    assert !t.Has(s.info[id].namespace, s.info[id].name);
    WrittenWriteIff(t, id, ip, now);
  }

  /** The same when the pod is set again in between: its old record comes back into the index. */
  lemma WriteAfterSet<Id>(s: State<Id>, call: SetCall<Id>, id: Id, ip: string, now: int)
    requires Inv(s) && call.Valid() && Fresh(s, call) && id in s.info && s.Registered(id)
    requires PodOf(s.info[id]) in call.req.pods[..|call.ids|]
    ensures var t := SetChaos(s, call);
            && Inv(t) && id in t.info && !t.Registered(id)
            && !Inv(WrittenWrite(t, id, ip, now))
            && EvictingWrite(t, id, ip, now) == t
  {
    var t := SetChaos(s, call);
    SetPrefixKeeps(s, call, |call.ids|);
    var trace := SetTrace(s, call);
    TraceOutdates(s, call, trace, |call.ids|, id);
    WrittenWriteIff(t, id, ip, now);
  }

  /** The record is unchanged from s to t, and registered no more if its pod is among these. */
  ghost predicate Outdated<Id>(s: State<Id>, t: State<Id>, id: Id, pods: seq<PodRef>)
    requires id in s.info
  {
    id in t.info && t.info[id] == s.info[id] && (PodOf(s.info[id]) in pods ==> !t.Registered(id))
  }

  /** Enrolling a pod changes no other record, and replaces the pod's old one. */
  lemma EnrolledOutdates<Id>(s: State<Id>, t: State<Id>, u: State<Id>, call: SetCall<Id>, n: nat, id: Id)
    requires Inv(t) && call.Shaped() && n < |call.ids| && Enrolled(t, u, call.ids[n], call.Data(n)) &&
             call.ids[n] !in t.info
    requires id in s.info && Outdated(s, t, id, call.req.pods[..n])
    ensures Outdated(s, u, id, call.req.pods[..n + 1])
  {
    var before, after := call.req.pods[..n], call.req.pods[..n + 1];
    assert after == before + [call.req.pods[n]];
    assert PodOf(call.Data(n)) == call.req.pods[n];
    assert PodOf(s.info[id]) in after ==> PodOf(s.info[id]) in before || PodOf(s.info[id]) == call.req.pods[n];
  }

  /** A record whose pod a Set call has reached is registered no more. */
  lemma {:induction false} TraceOutdates<Id>(s: State<Id>, call: SetCall<Id>, trace: seq<State<Id>>, n: nat, id: Id)
    requires Traces(call, trace) && trace[0].info == s.info && n <= |call.ids| && id in s.info
    ensures Outdated(s, trace[n], id, call.req.pods[..n])
  {
    if n > 0 {
      TraceOutdates(s, call, trace, n - 1, id);
      assert Registers(call, trace, n - 1);
      EnrolledOutdates(s, trace[n - 1], trace[n], call, n - 1, id);
    }
  }
}
