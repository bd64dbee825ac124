/** Which hosts are faulted for which pods, and when a pod's IP is looked up again, told from the
    requests and the cluster's answers alone. */
module ReferenceFaults {
  import opened Objects
  import opened Sequences
  import opened Registry
  import opened RegistrySets
  import opened RegistryRuns
  import opened Judging

  // ---------------------------------------------------------------------------------------------
  // After a Set
  // ---------------------------------------------------------------------------------------------

  /** The pod is registered with this record. */
  ghost predicate HasRecord<Id>(t: State<Id>, pod: PodRef, d: PodData) {
    && t.Has(pod.namespace, pod.name) && t.pods[pod.namespace][pod.name] in t.info
    && t.info[t.pods[pod.namespace][pod.name]] == d
  }

  lemma RecordNext<Id>(call: SetCall<Id>, trace: seq<State<Id>>, i: nat, n: nat)
    requires call.Shaped() && i <= n < |call.ids| && n + 1 < |trace| && Registers(call, trace, n)
    requires n == i || (call.req.pods[n] != call.req.pods[i] && HasRecord(trace[n], call.req.pods[i], call.Data(i)))
    ensures HasRecord(trace[n + 1], call.req.pods[i], call.Data(i))
  {
  }

  lemma TraceRecords<Id>(call: SetCall<Id>, trace: seq<State<Id>>, i: nat, n: nat)
    requires Traces(call, trace) && i < n <= |call.ids|
    requires forall j :: i < j < n ==> call.req.pods[j] != call.req.pods[i]
    ensures HasRecord(trace[n], call.req.pods[i], call.Data(i))
  {
    var holds := (m: int, t: State<Id>) => i < m <= n ==> HasRecord(t, call.req.pods[i], call.Data(i));
    forall m | 0 <= m < |trace| - 1 && holds(m, trace[m])
      ensures holds(m + 1, trace[m + 1])
    {
      if i <= m < n {
        assert Registers(call, trace, m);
        RecordNext(call, trace, i, m);
      }
    }
    Carried(holds, trace, n);
  }

  /** Each pod the call reached is registered as its last listing says: with the request's action, the
      scope all when there are no patterns and none otherwise, the selector, and the IP the cluster
      reported for it. */
  lemma SetRecords<Id>(s: State<Id>, call: SetCall<Id>, i: nat)
    requires call.Valid() && Inv(s) && Fresh(s, call) && i < |call.ids|
    requires forall j :: i < j < |call.ids| ==> call.req.pods[j] != call.req.pods[i]
    ensures var pod := call.req.pods[i];
            HasRecord(SetChaos(s, call), pod,
                      PodData(pod.namespace, pod.name, call.req.action, if call.req.patterns == [] then "all" else "",
                              call.selector, call.lookups[i].value, call.now))
  {
    var trace := SetTrace(s, call);
    TraceRecords(call, trace, i, |call.ids|);
  }

  /** A Set reaches no pod without a selector, and otherwise those before the first whose IP the cluster
      does not report; it succeeds when there is a selector and no such pod. The request is recorded in
      any case. */
  lemma SetProgress<Id>(s: State<Id>, call: SetCall<Id>, n: nat)
    requires call.Valid() && Inv(s) && Fresh(s, call) && n <= |call.lookups|
    requires forall i :: 0 <= i < n ==> call.lookups[i].Some?
    requires n == |call.lookups| || call.lookups[n].None?
    ensures |call.ids| == if call.selector.None? then 0 else n
    ensures call.Succeeds() <==> call.selector.Some? && n == |call.req.pods|
    ensures SetChaos(s, call).chaos == s.chaos[call.req.name := call.req]
  {
    SetPrefixKeeps(s, call, |call.ids|);
  }

  /** The last listing of a pod. */
  lemma {:induction false} LastListing(pods: seq<PodRef>, pod: PodRef) returns (i: nat)
    requires pod in pods
    ensures i < |pods| && pods[i] == pod && forall j :: i < j < |pods| ==> pods[j] != pod
  {
    var n := |pods| - 1;
    if pods[n] == pod {
      i := n;
    } else {
      i := LastListing(pods[..n], pod);
    }
  }

  /** A request from an IP that leads to a pod the call reached is faulted for every host when the call
      has no patterns, and otherwise for the hosts its selector accepts. */
  lemma SetFaults<Id>(s: State<Id>, call: SetCall<Id>, ip: string, host: string)
    requires call.Valid() && Inv(s) && Fresh(s, call) && ip in SetChaos(s, call).byIP
    requires var t := SetChaos(s, call);
             t.byIP[ip] in t.info ==> PodOf(t.info[t.byIP[ip]]) in call.req.pods[..|call.ids|]
    ensures var t := SetChaos(s, call);
            && Closed(t) && FoundAt(t, ip).Some? && Answerable(FoundAt(t, ip))
            && (NeedChaos(FoundAt(t, ip), host) <==>
                  call.req.patterns == [] || (call.selector.Some? && call.selector.value(host)))
            && FoundAt(t, ip).value.action == call.req.action && FoundAt(t, ip).value.ip == ip
  {
    var t := SetChaos(s, call);
    SetKeeps(s, call);
    var reached := call.req.pods[..|call.ids|];
    var d := t.info[t.byIP[ip]];
    var i := LastListing(reached, PodOf(d));
    forall j | i < j < |call.ids|
      ensures call.req.pods[j] != call.req.pods[i]
    {
      assert call.req.pods[j] == reached[j];
    }
    SetRecords(s, call, i);
    assert call.selector.Some?;
  }

  /** Such IPs are those the cluster reported, when no two registered pods share one. */
  lemma SetLeads<Id>(s: State<Id>, call: SetCall<Id>, i: nat)
    requires call.Valid() && Inv(s) && Fresh(s, call) && Complete(s) && Unshared(s, call) && i < |call.ids|
    requires forall j :: i < j < |call.ids| ==> call.req.pods[j] != call.req.pods[i]
    ensures var t, ip := SetChaos(s, call), call.lookups[i].value;
            ip in t.byIP && t.byIP[ip] in t.info && PodOf(t.info[t.byIP[ip]]) == call.req.pods[i]
  {
    SetRecords(s, call, i);
    SetComplete(s, call);
  }

  // ---------------------------------------------------------------------------------------------
  // Refreshes
  // ---------------------------------------------------------------------------------------------

  /** A lookup is refreshed exactly when its record has not been looked up for more than ten seconds and
      the cluster reports another IP; the record then has that IP, from now on. */
  lemma RefreshAccount<Id>(s: State<Id>, ip: string, lookup: Option<string>, now: int)
    requires Closed(s)
    ensures var due := RefreshDue(s, ip, lookup, now);
            && (due.Some? <==> && ip in s.byIP && now > s.info[s.byIP[ip]].lastUpdate + 10
                               && lookup.Some? && lookup.value != s.info[s.byIP[ip]].ip)
            && (due.Some? ==> due.value == s.byIP[ip])
    ensures forall t :: t in {WrittenRefresh(s, ip, lookup, now), EvictingRefresh(s, ip, lookup, now)} ==>
              && t.pods == s.pods && t.chaos == s.chaos && t.info.Keys == s.info.Keys
              && forall id :: id in s.info ==>
                   || t.info[id] == s.info[id]
                   || (RefreshDue(s, ip, lookup, now) == Some(id)
                       && t.info[id] == s.info[id].(ip := lookup.value, lastUpdate := now))
    ensures RefreshDue(s, ip, lookup, now).Some? ==>
              var t := WrittenRefresh(s, ip, lookup, now);
              && lookup.value in t.byIP && t.byIP[lookup.value] == s.byIP[ip]
              && t.info[s.byIP[ip]] == s.info[s.byIP[ip]].(ip := lookup.value, lastUpdate := now)
  {
  }

  /** No record is refreshed within ten seconds of being looked up: by a Set, at start-up or by a
      refresh. */
  lemma RestsAfterLookup<Id>(t: State<Id>, ip: string, lookup: Option<string>, later: int)
    requires Closed(t) && ip in t.byIP && later <= t.info[t.byIP[ip]].lastUpdate + 10
    ensures RefreshDue(t, ip, lookup, later).None?
  {
    RefreshAccount(t, ip, lookup, later);
  }

  lemma StampNext<Id>(order: seq<PodRef>, ips: PodRef -> string, now: int, trace: seq<State<Id>>, i: nat, n: nat)
    requires n < |order| && |trace| == |order| + 1 && PodSeeded(order, ips, now, trace, n) && i <= n
    requires i < n ==> Stamped(trace[n], order[i], now)
    ensures Stamped(trace[n + 1], order[i], now)
  {
  }

  /** The pod's record was looked up at this time. */
  ghost predicate Stamped<Id>(t: State<Id>, pod: PodRef, now: int) {
    && t.Has(pod.namespace, pod.name) && t.pods[pod.namespace][pod.name] in t.info
    && t.info[t.pods[pod.namespace][pod.name]].lastUpdate == now
  }

  /** Start-up looks up every pod it visits. */
  lemma SeedStamps<Id>(s: State<Id>, order: seq<PodRef>, ips: PodRef -> string, now: int, n: nat, i: nat)
    requires VisitOrder(s, order) && i < n <= |order|
    ensures Stamped(SeedPrefix(s, order, ips, now, n), order[i], now)
  {
    var trace := SeedTrace(s, order, ips, now);
    var holds := (m: int, t: State<Id>) => i < m <= n ==> Stamped(t, order[i], now);
    forall m | 0 <= m < |trace| - 1 && holds(m, trace[m])
      ensures holds(m + 1, trace[m + 1])
    {
      if i <= m < n {
        SeedPodNext(s, order, ips, now, trace, m);
        StampNext(order, ips, now, trace, i, m);
      }
    }
    Carried(holds, trace, n);
  }
}
