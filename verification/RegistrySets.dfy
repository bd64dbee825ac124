/** What a Set call does to the index, pod by pod. */
module RegistrySets {
  import opened Sequences
  import opened Registry

  /** The states a Set call passes through, one more pod registered at each. */
  ghost predicate Traces<Id>(call: SetCall<Id>, trace: seq<State<Id>>) {
    && call.Shaped() && |trace| == |call.ids| + 1 && Inv(trace[0])
    && forall i :: 0 <= i < |call.ids| ==> Registers(call, trace, i)
  }

  /** The call registers its pod i, under an identity not known before. */
  ghost predicate Registers<Id>(call: SetCall<Id>, trace: seq<State<Id>>, i: nat)
    requires call.Shaped() && i < |call.ids| && i + 1 < |trace|
  {
    Inv(trace[i]) && call.ids[i] !in trace[i].info && Enrolled(trace[i], trace[i + 1], call.ids[i], call.Data(i))
  }

  lemma SetRegisters<Id>(s: State<Id>, call: SetCall<Id>, trace: seq<State<Id>>, i: nat)
    requires call.Shaped() && Inv(s) && Fresh(s, call) && i < |call.ids| && i + 1 < |trace|
    requires trace[i] == SetPrefix(s, call, i) && trace[i + 1] == SetPrefix(s, call, i + 1)
    ensures Registers(call, trace, i)
  {
    SetPrefixKeeps(s, call, i);
    SetPrefixNext(s, call, i);
  }

  lemma SetTrace<Id>(s: State<Id>, call: SetCall<Id>) returns (trace: seq<State<Id>>)
    requires call.Shaped() && Inv(s) && Fresh(s, call)
    ensures Traces(call, trace) && trace[0].pods == s.pods && trace[0].info == s.info
    ensures Complete(s) ==> Complete(trace[0])
    ensures forall i :: 0 <= i <= |call.ids| ==> trace[i] == SetPrefix(s, call, i)
  {
    trace := seq(|call.ids| + 1, i requires 0 <= i <= |call.ids| => SetPrefix(s, call, i));
    SetStart(s, call);
    forall i | 0 <= i < |call.ids|
      ensures Registers(call, trace, i)
    {
      SetRegisters(s, call, trace, i);
    }
  }

  /** No pod a Set call reaches is given an IP that another registered pod has at that moment. */
  ghost predicate Unshared<Id>(s: State<Id>, call: SetCall<Id>)
    requires call.Shaped() && Inv(s) && Fresh(s, call)
  {
    forall i :: 0 <= i < |call.ids| ==>
      (SetPrefixKeeps(s, call, i);
       !TakenByOther(SetPrefix(s, call, i), call.Data(i).namespace, call.Data(i).name, call.Data(i).ip))
  }

  /** The IP of the call's pod i is not another pod's when the call registers it. */
  ghost predicate Unclaimed<Id>(call: SetCall<Id>, trace: seq<State<Id>>, i: nat)
    requires call.Shaped() && i < |call.ids| && i < |trace|
  {
    Inv(trace[i]) && !TakenByOther(trace[i], call.Data(i).namespace, call.Data(i).name, call.Data(i).ip)
  }

  lemma CompleteStep<Id>(call: SetCall<Id>, trace: seq<State<Id>>, i: nat)
    requires call.Shaped() && i < |call.ids| && i + 1 < |trace|
    requires Registers(call, trace, i) && Unclaimed(call, trace, i) && Complete(trace[i])
    ensures Inv(trace[i + 1]) && Complete(trace[i + 1])
  {
    CompleteNext(trace[i], trace[i + 1], call.ids[i], call.Data(i));
  }

  lemma TraceComplete<Id>(call: SetCall<Id>, trace: seq<State<Id>>, n: nat)
    requires Traces(call, trace) && Complete(trace[0]) && n <= |call.ids|
    requires forall i :: 0 <= i < |call.ids| ==> Unclaimed(call, trace, i)
    ensures Inv(trace[n]) && Complete(trace[n])
  {
    var holds := (i: int, t: State<Id>) => Inv(t) && Complete(t);
    forall i | 0 <= i < |trace| - 1 && holds(i, trace[i])
      ensures holds(i + 1, trace[i + 1])
    {
      assert Registers(call, trace, i) && Unclaimed(call, trace, i);
      CompleteStep(call, trace, i);
    }
    Carried(holds, trace, n);
  }

  lemma SetComplete<Id>(s: State<Id>, call: SetCall<Id>)
    requires call.Valid() && Inv(s) && Complete(s) && Fresh(s, call) && Unshared(s, call)
    ensures Inv(SetChaos(s, call)) && Complete(SetChaos(s, call))
  {
    var trace := SetTrace(s, call);
    forall i | 0 <= i < |call.ids|
      ensures Unclaimed(call, trace, i)
    {
      SetPrefixKeeps(s, call, i);
    }
    TraceComplete(call, trace, |call.ids|);
  }

  lemma HoldsStep<Id>(call: SetCall<Id>, trace: seq<State<Id>>, i: nat, pod: PodRef, id: Id, ip: string)
    requires call.Shaped() && i < |call.ids| && i + 1 < |trace|
    requires Registers(call, trace, i) && pod != call.req.pods[i] && Holds(trace[i], pod, id, ip)
    ensures Holds(trace[i + 1], pod, id, ip)
  {
    HoldsNext(trace[i], trace[i + 1], call.ids[i], call.Data(i), pod, id, ip);
  }

  lemma TraceOthers<Id>(call: SetCall<Id>, trace: seq<State<Id>>, n: nat, pod: PodRef, id: Id, ip: string)
    requires Traces(call, trace) && n <= |call.ids|
    requires Holds(trace[0], pod, id, ip) && pod !in call.req.pods
    ensures Holds(trace[n], pod, id, ip)
  {
    var holds := (i: int, t: State<Id>) => Holds(t, pod, id, ip);
    forall i | 0 <= i < |trace| - 1 && holds(i, trace[i])
      ensures holds(i + 1, trace[i + 1])
    {
      assert Registers(call, trace, i) && call.req.pods[i] in call.req.pods;
      HoldsStep(call, trace, i, pod, id, ip);
    }
    Carried(holds, trace, n);
  }

  /** Set leaves the lookup of every pod it does not list as it was. */
  lemma SetLeavesOthers<Id>(s: State<Id>, call: SetCall<Id>, ns: string, name: string)
    requires call.Valid() && Inv(s) && Complete(s) && Fresh(s, call) && Unshared(s, call)
    requires s.Has(ns, name) && PodRef(ns, name) !in call.req.pods
    ensures var t, ip := SetChaos(s, call), RecordedIP(s, ns, name);
            ip in s.byIP && ip in t.byIP && t.byIP[ip] == s.byIP[ip] == s.pods[ns][name]
  {
    var trace := SetTrace(s, call);
    TraceOthers(call, trace, |call.ids|, PodRef(ns, name), s.pods[ns][name], RecordedIP(s, ns, name));
    SetComplete(s, call);
  }
}
