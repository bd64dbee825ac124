/** Whether the record found for a source IP can be asked about a host, from the configuration on. */
module Judging {
  import opened Objects
  import opened Sequences
  import opened Registry
  import opened RegistrySets
  import opened RegistryRuns
  import opened WrittenRuns

  /** A record that can be asked: it covers all hosts, or it has a selector. */
  predicate Judgeable(d: PodData) {
    d.scope == SCOPE_ALL || d.selector.Some?
  }

  predicate Answerable(found: Option<PodData>) {
    found.Some? ==> Judgeable(found.value)
  }

  /** Whether a request for a host is faulted, for the record found under its source IP, if any. */
  function NeedChaos(found: Option<PodData>, host: string): bool
    requires Answerable(found)
  {
    if found.None? then false
    else if found.value.scope == SCOPE_ALL then true
    else found.value.selector.value(host)
  }

  function FoundAt<Id>(s: State<Id>, ip: string): Option<PodData>
    requires ip in s.byIP ==> s.byIP[ip] in s.info
  {
    if ip in s.byIP then Some(s.info[s.byIP[ip]]) else None
  }

  /** A request from any source IP can be judged. */
  ghost predicate Judged<Id>(s: State<Id>)
    requires Closed(s)
  {
    forall ip :: Answerable(FoundAt(s, ip))
  }

  // ---------------------------------------------------------------------------------------------
  // Records keep what judging asks of them, and new ones can be asked.
  // ---------------------------------------------------------------------------------------------

  ghost predicate Grown<Id>(s: State<Id>, t: State<Id>) {
    && s.info.Keys <= t.info.Keys
    && (forall id :: id in s.info ==>
          && t.info[id].scope == s.info[id].scope && t.info[id].selector == s.info[id].selector
          && t.info[id].namespace == s.info[id].namespace && t.info[id].name == s.info[id].name)
    && (forall id :: id in t.info && id !in s.info ==> Judgeable(t.info[id]))
  }

  /** Registered or indexed records were so before, or are new. */
  ghost predicate NoRevival<Id>(s: State<Id>, t: State<Id>)
    requires LooseInv(s) && LooseInv(t)
  {
    && (forall id :: id in s.info && id in t.info && t.Registered(id) ==> s.Registered(id))
    && (forall ip :: ip in t.byIP && t.byIP[ip] in s.info ==> ip in s.byIP && s.byIP[ip] == t.byIP[ip])
  }

  ghost predicate Grows<Id>(s: State<Id>, t: State<Id>) {
    Inv(s) && Inv(t) && Grown(s, t) && NoRevival(s, t)
  }

  lemma GrowsTransitive<Id>(s: State<Id>, t: State<Id>, u: State<Id>)
    requires Grows(s, t) && Grows(t, u)
    ensures Grows(s, u)
  {
  }

  lemma EnrolledGrows<Id>(s: State<Id>, t: State<Id>, id: Id, d: PodData)
    requires Inv(s) && id !in s.info && Enrolled(s, t, id, d) && Judgeable(d)
    ensures Grows(s, t)
  {
    EnrolledKeeps(s, t, id, d);
    forall x | x in s.info && x in t.info && t.Registered(x)
      ensures s.Registered(x)
    {
      assert t.info[x] == s.info[x] && x != id;
    }
  }

  lemma DataJudgeable<Id>(call: SetCall<Id>, i: nat)
    requires call.Shaped() && i < |call.ids|
    ensures Judgeable(call.Data(i))
  {
  }

  lemma RegistersGrows<Id>(call: SetCall<Id>, trace: seq<State<Id>>, i: nat)
    requires call.Shaped() && i < |call.ids| && i + 1 < |trace| && Registers(call, trace, i)
    ensures Grows(trace[i], trace[i + 1])
  {
    DataJudgeable(call, i);
    EnrolledGrows(trace[i], trace[i + 1], call.ids[i], call.Data(i));
  }

  /** A Set registers nothing before its selector is built. */
  lemma SetGrows<Id>(s: State<Id>, call: SetCall<Id>)
    requires call.Valid() && Inv(s) && Fresh(s, call)
    ensures Grows(s, SetChaos(s, call))
  {
    var trace := SetTrace(s, call);
    var holds := (i: int, t: State<Id>) => Grows(trace[0], t);
    forall i | 0 <= i < |trace| - 1 && holds(i, trace[i])
      ensures holds(i + 1, trace[i + 1])
    {
      assert Registers(call, trace, i);
      RegistersGrows(call, trace, i);
      GrowsTransitive(trace[0], trace[i], trace[i + 1]);
    }
    Carried(holds, trace, |call.ids|);
    SetStart(s, call);
    assert SetPrefix(s, call, 0).byIP == s.byIP;
    GrowsTransitive(s, trace[0], trace[|call.ids|]);
  }

  lemma {:induction false} DropAllIndex<Id>(s: State<Id>, pods: seq<PodRef>)
    ensures forall ip :: ip in DropAll(s, pods).byIP ==> ip in s.byIP && DropAll(s, pods).byIP[ip] == s.byIP[ip]
  {
    if pods != [] {
      DropAllIndex(s, pods[..|pods| - 1]);
    }
  }

  lemma CancelGrows<Id>(s: State<Id>, name: string)
    requires Inv(s)
    ensures Grows(s, CancelChaos(s, name))
  {
    CancelKeeps(s, name);
    if name in s.chaos {
      DropAllIndex(s, s.chaos[name].pods);
    }
  }

  /** No step changes what an old record can be asked, and a new record can be asked. */
  lemma RunStepGrown<Id>(m: Machine<Id>, e: Event<Id>)
    requires MachineInv(m) && Enabled(m, e)
    ensures Grown(m.state, Step(m, e).state)
  {
    match e
    case Set(call) => SetGrows(m.state, call);
    case Cancel(name) => CancelGrows(m.state, name);
    case BeginRefresh(_, _, _) =>
    case FinishRefresh(id, newIP, at) =>
  }

  ghost predicate Armed<Id>(s: State<Id>) {
    forall id :: id in s.info ==> Judgeable(s.info[id])
  }

  /** No run adds or removes a record that cannot be asked. */
  lemma {:induction false} RunArmed<Id>(m: Machine<Id>, events: seq<Event<Id>>)
    requires MachineInv(m) && ValidRun(m, events)
    ensures Armed(Run(m, events).state) <==> Armed(m.state)
    decreases |events|
  {
    if events != [] {
      StepKeeps(m, events[0]);
      RunStepGrown(m, events[0]);
      RunArmed(Step(m, events[0]), events[1..]);
    }
  }

  // ---------------------------------------------------------------------------------------------
  // Whole runs
  // ---------------------------------------------------------------------------------------------

  /** The records that are indexed, or may be again when their refresh ends, can be asked. */
  ghost predicate Ready<Id>(m: Machine<Id>)
    requires MachineInv(m)
  {
    && Judged(m.state)
    && forall p :: p in m.pending && m.state.Registered(p.0) ==> Judgeable(m.state.info[p.0])
  }

  lemma GrowsReady<Id>(m: Machine<Id>, t: State<Id>)
    requires MachineInv(m) && Ready(m) && Grows(m.state, t)
    ensures MachineInv(m.(state := t)) && Ready(m.(state := t))
  {
    forall ip | ip in t.byIP
      ensures Judgeable(t.info[t.byIP[ip]])
    {
      if t.byIP[ip] in m.state.info {
        assert Answerable(FoundAt(m.state, ip));
      }
    }
  }

  lemma BeginReady<Id>(m: Machine<Id>, ip: string, lookup: Option<string>, now: int)
    requires MachineInv(m) && Ready(m)
    ensures MachineInv(Step(m, BeginRefresh(ip, lookup, now))) && Ready(Step(m, BeginRefresh(ip, lookup, now)))
  {
    assert Answerable(FoundAt(m.state, ip));
  }

  /** t is s with a registered record moved, which was to be moved there. */
  lemma MovedReady<Id>(s: State<Id>, t: State<Id>, id: Id, ip: string, now: int)
    requires Inv(s) && Inv(t) && Judged(s) && id in s.info && Judgeable(s.info[id])
    requires t.info == s.info[id := Relocated(s.info[id], ip, now)] && t.byIP == (s.byIP - {s.info[id].ip})[ip := id]
    ensures Judged(t)
  {
    forall x | x in t.byIP
      ensures Judgeable(t.info[t.byIP[x]])
    {
      if x != ip {
        assert x in s.byIP && t.byIP[x] == s.byIP[x];
        assert Answerable(FoundAt(s, x));
      }
    }
  }

  lemma FinishReady<Id>(m: Machine<Id>, id: Id, newIP: string, at: int)
    requires MachineInv(m) && Ready(m) && (id, newIP) in m.pending
    ensures MachineInv(Step(m, FinishRefresh(id, newIP, at))) && Ready(Step(m, FinishRefresh(id, newIP, at)))
  {
    var s, t := m.state, EvictingWrite(m.state, id, newIP, at);
    StepKeeps(m, FinishRefresh(id, newIP, at));
    if s.Registered(id) {
      MovedReady(s, t, id, newIP, at);
    }
    forall p | p in m.pending && t.Registered(p.0)
      ensures Judgeable(t.info[p.0])
    {
      assert s.Registered(p.0);
    }
  }

  lemma StepReady<Id>(m: Machine<Id>, e: Event<Id>)
    requires MachineInv(m) && Enabled(m, e) && Ready(m)
    ensures MachineInv(Step(m, e)) && Ready(Step(m, e))
  {
    match e
    case Set(call) =>
      SetGrows(m.state, call);
      GrowsReady(m, SetChaos(m.state, call));
    case Cancel(name) =>
      CancelGrows(m.state, name);
      GrowsReady(m, CancelChaos(m.state, name));
    case BeginRefresh(ip, lookup, now) => BeginReady(m, ip, lookup, now);
    case FinishRefresh(id, newIP, at) => FinishReady(m, id, newIP, at);
  }

  lemma {:induction false} RunReady<Id>(m: Machine<Id>, events: seq<Event<Id>>)
    requires MachineInv(m) && ValidRun(m, events) && Ready(m)
    ensures MachineInv(Run(m, events)) && Ready(Run(m, events))
    decreases |events|
  {
    if events != [] {
      StepReady(m, events[0]);
      RunReady(Step(m, events[0]), events[1..]);
    }
  }

  /** However the registry is used, every request can be judged. */
  ghost predicate AlwaysJudged<Id(!new)>(m: Machine<Id>)
    requires MachineInv(m)
  {
    forall events :: ValidRun(m, events) ==> (RunKeeps(m, events); Judged(Run(m, events).state))
  }

  lemma PendingUnjudged<Id(!new)>(m: Machine<Id>, id: Id, newIP: string)
    requires MachineInv(m) && (id, newIP) in m.pending && m.state.Registered(id) && !Judgeable(m.state.info[id])
    ensures !AlwaysJudged(m)
  {
    var e: Event<Id> := FinishRefresh(id, newIP, 0);
    var events := [e];
    StepKeeps(m, e);
    assert events[1..] == [] && ValidRun(Step(m, e), events[1..]);
    assert ValidRun(m, events);
    RunKeeps(m, events);
    assert Run(m, events) == Run(Step(m, e), events[1..]) == Step(m, e);
    assert !Answerable(FoundAt(Step(m, e).state, newIP));
  }

  /** With the intended write, every request of every run can be judged exactly when the records
      indexed now can be asked, and those registered whose refresh is under way. */
  lemma AlwaysJudgedIff<Id(!new)>(m: Machine<Id>)
    requires MachineInv(m)
    ensures AlwaysJudged(m) <==> Ready(m)
  {
    if Ready(m) {
      forall events | ValidRun(m, events)
        ensures MachineInv(Run(m, events)) && Judged(Run(m, events).state)
      {
        RunReady(m, events);
      }
    } else if Judged(m.state) {
      var p :| p in m.pending && m.state.Registered(p.0) && !Judgeable(m.state.info[p.0]);
      PendingUnjudged(m, p.0, p.1);
    } else {
      var none: seq<Event<Id>> := [];
      assert ValidRun(m, none) && Run(m, none) == m;
    }
  }

  // ---------------------------------------------------------------------------------------------
  // Whole runs of the program, whose refreshes do not ask whether the record is still registered.
  // ---------------------------------------------------------------------------------------------

  /** The records that are indexed, or will be when their refresh ends, can be asked. */
  ghost predicate ReadyWritten<Id>(m: Machine<Id>)
    requires WrittenInv(m)
  {
    Judged(m.state) && forall p :: p in m.pending ==> Judgeable(m.state.info[p.0])
  }

  /** t is s with some records of its own, old ones in the index only where they were. */
  lemma OldIndexReady<Id>(m: Machine<Id>, t: State<Id>)
    requires WrittenInv(m) && ReadyWritten(m) && PodsInv(t) && OldIndex(m.state, t)
    requires m.state.info.Keys <= t.info.Keys && forall id :: id in m.state.info ==> t.info[id] == m.state.info[id]
    requires forall id :: id in t.info && id !in m.state.info ==> t.info[id].selector.Some?
    ensures WrittenInv(m.(state := t)) && ReadyWritten(m.(state := t))
  {
    forall ip | ip in t.byIP
      ensures Judgeable(t.info[t.byIP[ip]])
    {
      if t.byIP[ip] in m.state.info {
        assert Answerable(FoundAt(m.state, ip));
      }
    }
  }

  lemma WrittenBeginReady<Id>(m: Machine<Id>, ip: string, lookup: Option<string>, now: int)
    requires WrittenInv(m) && ReadyWritten(m)
    ensures var n := WrittenStep(m, BeginRefresh(ip, lookup, now)); WrittenInv(n) && ReadyWritten(n)
  {
    assert Answerable(FoundAt(m.state, ip));
  }

  lemma WrittenFinishReady<Id>(m: Machine<Id>, id: Id, newIP: string, at: int)
    requires WrittenInv(m) && ReadyWritten(m) && (id, newIP) in m.pending
    ensures var n := WrittenStep(m, FinishRefresh(id, newIP, at)); WrittenInv(n) && ReadyWritten(n)
  {
    var s, t := m.state, WrittenWrite(m.state, id, newIP, at);
    WrittenStepKeeps(m, FinishRefresh(id, newIP, at));
    forall ip | ip in t.byIP
      ensures Judgeable(t.info[t.byIP[ip]])
    {
      if ip != newIP {
        assert ip in s.byIP && t.byIP[ip] == s.byIP[ip];
        assert Answerable(FoundAt(s, ip));
      }
    }
  }

  lemma WrittenStepReady<Id>(m: Machine<Id>, e: Event<Id>)
    requires WrittenInv(m) && Enabled(m, e) && ReadyWritten(m)
    ensures WrittenInv(WrittenStep(m, e)) && ReadyWritten(WrittenStep(m, e))
  {
    match e
    case Set(call) =>
      SetPrefixArrives(m.state, call, |call.ids|);
      OldIndexReady(m, SetChaos(m.state, call));
    case Cancel(name) =>
      CancelPods(m.state, name);
      OldIndexReady(m, CancelChaos(m.state, name));
    case BeginRefresh(ip, lookup, now) => WrittenBeginReady(m, ip, lookup, now);
    case FinishRefresh(id, newIP, at) => WrittenFinishReady(m, id, newIP, at);
  }

  lemma {:induction false} WrittenRunReady<Id>(m: Machine<Id>, events: seq<Event<Id>>)
    requires WrittenInv(m) && ValidWritten(m, events) && ReadyWritten(m)
    ensures WrittenInv(WrittenRun(m, events)) && ReadyWritten(WrittenRun(m, events))
    decreases |events|
  {
    if events != [] {
      WrittenStepReady(m, events[0]);
      WrittenRunReady(WrittenStep(m, events[0]), events[1..]);
    }
  }

  /** However the registry is used, every request can be judged. */
  ghost predicate WrittenJudged<Id(!new)>(m: Machine<Id>)
    requires WrittenInv(m)
  {
    forall events :: ValidWritten(m, events) ==> (WrittenRunKeeps(m, events); Judged(WrittenRun(m, events).state))
  }

  lemma WrittenUnjudged<Id(!new)>(m: Machine<Id>, id: Id, newIP: string)
    requires WrittenInv(m) && (id, newIP) in m.pending && !Judgeable(m.state.info[id])
    ensures !WrittenJudged(m)
  {
    var e: Event<Id> := FinishRefresh(id, newIP, 0);
    var events := [e];
    WrittenStepKeeps(m, e);
    assert events[1..] == [] && ValidWritten(WrittenStep(m, e), events[1..]);
    assert ValidWritten(m, events);
    WrittenRunKeeps(m, events);
    assert WrittenRun(m, events) == WrittenRun(WrittenStep(m, e), events[1..]) == WrittenStep(m, e);
    assert !Answerable(FoundAt(WrittenStep(m, e).state, newIP));
  }

  /** Every request of every run can be judged exactly when the records indexed now, and those whose
      refresh is under way, can be asked. */
  lemma WrittenJudgedIff<Id(!new)>(m: Machine<Id>)
    requires WrittenInv(m)
    ensures WrittenJudged(m) <==> ReadyWritten(m)
  {
    if ReadyWritten(m) {
      forall events | ValidWritten(m, events)
        ensures WrittenInv(WrittenRun(m, events)) && Judged(WrittenRun(m, events).state)
      {
        WrittenRunReady(m, events);
      }
    } else if Judged(m.state) {
      var p :| p in m.pending && !Judgeable(m.state.info[p.0]);
      WrittenUnjudged(m, p.0, p.1);
    } else {
      var none: seq<Event<Id>> := [];
      assert ValidWritten(m, none) && WrittenRun(m, none) == m;
    }
  }

  lemma OthersJudged<Id>(s: State<Id>, t: State<Id>, id: Id)
    requires Inv(t) && Grown(s, t) && id in t.info && !t.Registered(id)
    requires forall x :: x in s.info && x != id ==> Judgeable(s.info[x])
    ensures Judged(t)
  {
    forall x | x in t.byIP
      ensures Judgeable(t.info[t.byIP[x]])
    {
      assert t.Registered(t.byIP[x]);
    }
  }

  /** The two writes differ in this: a record that cannot be asked, replaced by a Set while its refresh
      is under way, comes back into the index only as the program writes it. */
  lemma ReplacedPending<Id(!new)>(s: State<Id>, call: SetCall<Id>, id: Id, ip: string)
    requires Inv(s) && call.Valid() && Fresh(s, call) && id in s.info && s.Registered(id)
    requires PodOf(s.info[id]) in call.req.pods[..|call.ids|] && !Judgeable(s.info[id])
    requires forall x :: x in s.info && x != id ==> Judgeable(s.info[x])
    ensures var m := Machine(SetChaos(s, call), {(id, ip)});
            MachineInv(m) && WrittenInv(m) && AlwaysJudged(m) && !WrittenJudged(m)
  {
    var t := SetChaos(s, call);
    var m := Machine(t, {(id, ip)});
    WriteAfterSet(s, call, id, ip, 0);
    SetGrows(s, call);
    InvPods(t);
    OthersJudged(s, t, id);
    AlwaysJudgedIff(m);
    WrittenUnjudged(m, id, ip);
  }

  /** What the old IP of a refreshed pod leads to once everything is cancelled: with scope all, every
      request from it is still faulted. */
  lemma StillFaulted<Id>(s: State<Id>, ip: string, lookup: Option<string>, now: int, request: string, host: string)
    requires Inv(s) && Complete(s) && Covered(s) && s.chaos.Keys == {request}
    requires RefreshDue(s, ip, lookup, now).Some? && Judgeable(s.info[s.byIP[ip]])
    ensures var t := CancelChaos(WrittenRefresh(s, ip, lookup, now), request);
            && t.pods == map[] && t.chaos == map[] && Closed(t)
            && FoundAt(t, ip).Some? && Answerable(FoundAt(t, ip))
            && NeedChaos(FoundAt(t, ip), host) == NeedChaos(FoundAt(s, ip), host)
  {
    var u := WrittenRefresh(s, ip, lookup, now);
    InvPods(s);
    RefreshPods(s, ip, lookup, now);
    CancelPods(u, request);
    IndexAfterLastCancel(s, ip, lookup, now, request);
  }

  // ---------------------------------------------------------------------------------------------
  // From the configuration
  // ---------------------------------------------------------------------------------------------

  /** The configuration gives its pods a scope, but never a selector. */
  ghost predicate FromFile<Id>(s: State<Id>) {
    Configured(s) && forall id :: id in s.info ==> s.info[id].selector.None?
  }

  /** The last of the first n pods to be reported with the IP. */
  function Holder(order: seq<PodRef>, ips: PodRef -> string, n: nat, ip: string): (i: Option<nat>)
    requires n <= |order|
    ensures i.Some? ==> && i.value < n && ips(order[i.value]) == ip
                        && forall j :: i.value < j < n ==> ips(order[j]) != ip
    ensures i.None? ==> forall j :: 0 <= j < n ==> ips(order[j]) != ip
  {
    if n == 0 then None
    else if ips(order[n - 1]) == ip then Some(n - 1)
    else Holder(order, ips, n - 1, ip)
  }

  /** t is s with the first n pods visited: names, scopes and selectors are as they were, and every
      IP leads to its holder. */
  ghost predicate Visits<Id>(s: State<Id>, order: seq<PodRef>, ips: PodRef -> string, n: nat, t: State<Id>)
    requires VisitOrder(s, order) && n <= |order|
  {
    && t.pods == s.pods && t.info.Keys == s.info.Keys
    && (forall id :: id in s.info ==>
          t.info[id].scope == s.info[id].scope && t.info[id].selector == s.info[id].selector)
    && forall ip :: IndexedAt(s, order, ips, n, t, ip)
  }

  /** The IP leads to its holder's record, if it has a holder. */
  ghost predicate IndexedAt<Id>(s: State<Id>, order: seq<PodRef>, ips: PodRef -> string, n: nat, t: State<Id>,
                                ip: string)
    requires VisitOrder(s, order) && n <= |order|
  {
    var h := Holder(order, ips, n, ip);
    if h.Some? then ip in t.byIP && t.byIP[ip] == RecordOf(s, order, h.value) else ip !in t.byIP
  }

  function RecordOf<Id>(s: State<Id>, order: seq<PodRef>, i: nat): Id
    requires i < |order| && s.Has(order[i].namespace, order[i].name)
  {
    s.pods[order[i].namespace][order[i].name]
  }

  /** Pod i is seeded between states i and i + 1 of the trace. */
  ghost predicate PodSeeded<Id>(order: seq<PodRef>, ips: PodRef -> string, now: int, trace: seq<State<Id>>, i: nat)
    requires i < |order| && |trace| == |order| + 1
  {
    var t, pod := trace[i], order[i];
    && t.Has(pod.namespace, pod.name) && t.pods[pod.namespace][pod.name] in t.info
    && trace[i + 1] == SeedPod(t, pod, ips(pod), now)
  }

  lemma SeedPodNext<Id>(s: State<Id>, order: seq<PodRef>, ips: PodRef -> string, now: int, trace: seq<State<Id>>,
                        n: nat)
    requires VisitOrder(s, order) && n < |order| && |trace| == |order| + 1
    requires trace[n] == SeedPrefix(s, order, ips, now, n) && trace[n + 1] == SeedPrefix(s, order, ips, now, n + 1)
    ensures PodSeeded(order, ips, now, trace, n)
  {
    assert trace[n].Has(order[n].namespace, order[n].name);
  }

  lemma VisitsNone<Id>(s: State<Id>, order: seq<PodRef>, ips: PodRef -> string)
    requires Configured(s) && VisitOrder(s, order)
    ensures Visits(s, order, ips, 0, s)
  {
  }

  lemma IndexedNext<Id>(s: State<Id>, order: seq<PodRef>, ips: PodRef -> string, now: int, n: nat, t: State<Id>,
                        ip: string)
    requires VisitOrder(s, order) && n < |order| && IndexedAt(s, order, ips, n, t, ip) && t.pods == s.pods
    requires t.Has(order[n].namespace, order[n].name) && t.pods[order[n].namespace][order[n].name] in t.info
    ensures IndexedAt(s, order, ips, n + 1, SeedPod(t, order[n], ips(order[n]), now), ip)
  {
    if ip == ips(order[n]) {
      assert Holder(order, ips, n + 1, ip) == Some(n);
    } else {
      assert Holder(order, ips, n + 1, ip) == Holder(order, ips, n, ip);
    }
  }

  lemma VisitsNext<Id>(s: State<Id>, order: seq<PodRef>, ips: PodRef -> string, now: int, trace: seq<State<Id>>, n: nat)
    requires VisitOrder(s, order) && n < |order| && |trace| == |order| + 1
    requires Visits(s, order, ips, n, trace[n]) && PodSeeded(order, ips, now, trace, n)
    ensures Visits(s, order, ips, n + 1, trace[n + 1])
  {
    var next, u := n + 1, trace[n + 1];
    forall ip
      ensures IndexedAt(s, order, ips, next, u, ip)
    {
      IndexedNext(s, order, ips, now, n, trace[n], ip);
    }
  }

  lemma TraceVisits<Id>(s: State<Id>, order: seq<PodRef>, ips: PodRef -> string, now: int, trace: seq<State<Id>>,
                        n: nat)
    requires VisitOrder(s, order) && n <= |order| && |trace| == |order| + 1
    requires forall i :: 0 <= i < |order| ==> PodSeeded(order, ips, now, trace, i)
    requires Visits(s, order, ips, 0, trace[0])
    ensures Visits(s, order, ips, n, trace[n])
  {
    var holds := (i: int, t: State<Id>) => 0 <= i <= |order| && Visits(s, order, ips, i, t);
    forall i | 0 <= i < |trace| - 1 && holds(i, trace[i])
      ensures holds(i + 1, trace[i + 1])
    {
      assert PodSeeded(order, ips, now, trace, i);
      VisitsNext(s, order, ips, now, trace, i);
    }
    Carried(holds, trace, n);
  }

  /** Seeding indexes under each reported IP the last pod reported with it. */
  lemma SeedVisits<Id>(s: State<Id>, order: seq<PodRef>, ips: PodRef -> string, now: int, n: nat)
    requires Configured(s) && VisitOrder(s, order) && n <= |order|
    ensures Visits(s, order, ips, n, SeedPrefix(s, order, ips, now, n))
  {
    var trace := SeedTrace(s, order, ips, now);
    VisitsNone(s, order, ips);
    assert SeedPrefix(s, order, ips, now, 0) == s;
    forall i | 0 <= i < |order|
      ensures PodSeeded(order, ips, now, trace, i)
    {
      SeedPodNext(s, order, ips, now, trace, i);
    }
    TraceVisits(s, order, ips, now, trace, n);
  }

  /** After start-up every request can be judged, whatever happens later, exactly when every pod that
      holds its IP covers all hosts. */
  lemma StartJudgedIff<Id(!new)>(s: State<Id>, order: seq<PodRef>, ips: PodRef -> string, now: int)
    requires FromFile(s) && VisitOrder(s, order)
    ensures var m := Machine(SeedPrefix(s, order, ips, now, |order|), {});
            MachineInv(m) && WrittenInv(m) && (AlwaysJudged(m) <==> WrittenJudged(m))
    ensures WrittenJudged(Machine(SeedPrefix(s, order, ips, now, |order|), {})) <==>
            forall i :: 0 <= i < |order| && HoldsIP(order, ips, i) ==> s.info[RecordOf(s, order, i)].scope == SCOPE_ALL
  {
    var n := |order|;
    var t := SeedPrefix(s, order, ips, now, n);
    SeedKeeps(s, order, ips, now, n);
    SeedVisits(s, order, ips, now, n);
    InvPods(t);
    AlwaysJudgedIff(Machine(t, {}));
    WrittenJudgedIff(Machine(t, {}));
    HoldersJudged(s, t, order, ips);
  }

  /** The pod holds the IP it was reported with: no later one was reported with it. */
  predicate HoldsIP(order: seq<PodRef>, ips: PodRef -> string, i: nat)
    requires i < |order|
  {
    forall j :: i < j < |order| ==> ips(order[j]) != ips(order[i])
  }

  lemma HolderFound<Id>(s: State<Id>, t: State<Id>, order: seq<PodRef>, ips: PodRef -> string, i: nat)
    requires (forall id :: id in s.info ==> s.info[id].selector.None?) && VisitOrder(s, order)
    requires Visits(s, order, ips, |order|, t) && i < |order| && HoldsIP(order, ips, i)
    ensures ips(order[i]) in t.byIP && t.byIP[ips(order[i])] in t.info
    ensures Answerable(FoundAt(t, ips(order[i]))) <==> s.info[RecordOf(s, order, i)].scope == SCOPE_ALL
  {
    var ip := ips(order[i]);
    assert Holder(order, ips, |order|, ip) == Some(i) && IndexedAt(s, order, ips, |order|, t, ip);
    assert t.byIP[ip] == RecordOf(s, order, i) && RecordOf(s, order, i) in s.info;
  }

  lemma HoldersJudged<Id>(s: State<Id>, t: State<Id>, order: seq<PodRef>, ips: PodRef -> string)
    requires FromFile(s) && VisitOrder(s, order) && Inv(t) && Visits(s, order, ips, |order|, t)
    ensures Judged(t) <==>
            forall i :: 0 <= i < |order| && HoldsIP(order, ips, i) ==> s.info[RecordOf(s, order, i)].scope == SCOPE_ALL
  {
    if Judged(t) {
      forall i | 0 <= i < |order| && HoldsIP(order, ips, i)
        ensures s.info[RecordOf(s, order, i)].scope == SCOPE_ALL
      {
        HolderFound(s, t, order, ips, i);
      }
    } else {
      var ip :| !Answerable(FoundAt(t, ip));
      assert IndexedAt(s, order, ips, |order|, t, ip);
      var i := Holder(order, ips, |order|, ip).value;
      HolderFound(s, t, order, ips, i);
      assert HoldsIP(order, ips, i) && s.info[RecordOf(s, order, i)].scope != SCOPE_ALL;
    }
  }

  /** With a configured scope other than "all", some answers of the cluster lead to a request that
      cannot be judged. */
  lemma ScopeUnjudged<Id(!new)>(s: State<Id>, order: seq<PodRef>, now: int, i: nat) returns (ips: PodRef -> string)
    requires FromFile(s) && VisitOrder(s, order) && i < |order| && s.info[RecordOf(s, order, i)].scope != SCOPE_ALL
    ensures WrittenInv(Machine(SeedPrefix(s, order, ips, now, |order|), {}))
    ensures !WrittenJudged(Machine(SeedPrefix(s, order, ips, now, |order|), {}))
  {
    var pod := order[i];
    ips := (p: PodRef) => if p == pod then "1" else "0";
    StartJudgedIff(s, order, ips, now);
    assert ips(order[i]) == "1";
    forall j | i < j < |order|
      ensures ips(order[j]) != ips(order[i])
    {
      assert order[j] != order[i];
    }
    assert HoldsIP(order, ips, i);
  }

  /** However the cluster answers for the configured pods, every request can be judged. */
  ghost predicate SafeStart<Id(!new)>(s: State<Id>, order: seq<PodRef>, now: int)
    requires FromFile(s) && VisitOrder(s, order)
  {
    forall ips :: (StartJudgedIff(s, order, ips, now);
                   WrittenJudged(Machine(SeedPrefix(s, order, ips, now, |order|), {})))
  }

  /** A configuration is safe however the cluster answers exactly when all its scopes are "all". */
  lemma ConfigurationJudgedIff<Id(!new)>(s: State<Id>, order: seq<PodRef>, now: int)
    requires FromFile(s) && VisitOrder(s, order) && VisitsAll(s, order)
    ensures SafeStart(s, order, now) <==>
            forall ns, name :: s.Has(ns, name) ==> s.info[s.pods[ns][name]].scope == SCOPE_ALL
  {
    if ns, name :| s.Has(ns, name) && s.info[s.pods[ns][name]].scope != SCOPE_ALL {
      assert PodRef(ns, name) in order;
      var i :| 0 <= i < |order| && order[i] == PodRef(ns, name);
      var ips := ScopeUnjudged(s, order, now, i);
    } else {
      forall ips: PodRef -> string
        ensures WrittenInv(Machine(SeedPrefix(s, order, ips, now, |order|), {}))
        ensures WrittenJudged(Machine(SeedPrefix(s, order, ips, now, |order|), {}))
      {
        StartJudgedIff(s, order, ips, now);
        forall i | 0 <= i < |order|
          ensures s.info[RecordOf(s, order, i)].scope == SCOPE_ALL
        {
          assert s.Has(order[i].namespace, order[i].name);
        }
      }
    }
  }

  /** The first pod of the documented sample configuration. */
  const SAMPLE_POD := PodRef("busybox", "busybox-0")

  const SAMPLE := PodData("busybox", "busybox-0", "error", "outer", None, "", 0)

  function SampleState(): State<nat> {
    State(map[], map["busybox" := map["busybox-0" := 0]], map[], map[0 := SAMPLE])
  }

  /** With it, a request from the pod finds a record that cannot be asked. */
  lemma SampleUnjudged(ip: string, now: int)
    ensures FromFile(SampleState()) && VisitOrder(SampleState(), [SAMPLE_POD])
    ensures var t := SeedPrefix(SampleState(), [SAMPLE_POD], (p: PodRef) => ip, now, 1);
            ip in t.byIP && t.byIP[ip] in t.info && !Answerable(FoundAt(t, ip))
  {
    var s, order, ips := SampleState(), [SAMPLE_POD], (p: PodRef) => ip;
    assert forall ns, name :: s.Has(ns, name) <==> ns == "busybox" && name == "busybox-0";
    assert SeedPrefix(s, order, ips, now, 0) == s;
    assert SeedPrefix(s, order, ips, now, 1) == SeedPod(s, SAMPLE_POD, ip, now);
  }
}
