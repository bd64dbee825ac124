/** From a query name to its answers: pods, and the dispatch over parsed requests. */
module Records {
  import opened Sequences
  import opened Text
  import opened Objects
  import opened Parse
  import opened HostLabel
  import opened Backend
  import opened ServiceQuery

  // ---------------------------------------------------------------------------------------------
  // Pods
  // ---------------------------------------------------------------------------------------------

  function PodAnswer(k: Kube, r: RecordRequest, zone: Name, ip: string): Answer {
    Answer(ip, 0, k.ttl, ZonePath(zone, QUERY_PREFIX) + [POD, r.namespace, r.service])
  }

  predicate PodMatches(k: Kube, r: RecordRequest, ip: string, p: Pod) {
    && !(Wildcard(r.namespace) && !k.NamespaceExposed(p.namespace))
    && ip == p.podIP && Match(r.namespace, p.namespace)
  }

  function PodAnswers(k: Kube, r: RecordRequest, zone: Name, ip: string, p: Pod): seq<Answer> {
    if PodMatches(k, r, ip, p) then [PodAnswer(k, r, zone, ip)] else []
  }

  function PodsFound(k: Kube, r: RecordRequest, zone: Name): Lookup {
    var ip := DashDecode(r.service);
    if k.podMode.PodsDisabled? then Lookup([], NoItems)
    else if !Wildcard(r.namespace) && !k.NamespaceExposed(r.namespace) then Lookup([], NoItems)
    else if r.service == "" then Lookup([], NoError)
    else if k.podMode.PodsInsecure? then
      if k.hostKind(ip).HostName? then Lookup([], NoItems) else Lookup([PodAnswer(k, r, zone, ip)], NoError)
    else
      var answers := FlatMap((p: Pod) => PodAnswers(k, r, zone, ip, p), k.PodIndex(ip));
      Lookup(answers, if answers == [] then DefaultError(k, r) else NoError)
  }

  method FindPods(k: Kube, r: RecordRequest, zone: Name) returns (pods: seq<Answer>, err: Error)
    ensures Lookup(pods, err) == PodsFound(k, r, zone)
  {
    if k.podMode.PodsDisabled? {
      return [], NoItems;
    }
    var namespace := r.namespace;
    if !Wildcard(namespace) && !k.NamespaceExposed(namespace) {
      return [], NoItems;
    }
    var podname := r.service;
    if podname == "" {
      if k.NamespaceExposed(namespace) || Wildcard(namespace) {
        return [], NoError;
      }
      return [], NoItems;
    }
    var ip;
    if Count(podname, '-') == 3 && !Doubled(podname, '-') {
      ip := Replace(podname, '-', '.');
    } else {
      ip := Replace(podname, '-', ':');
    }
    if k.podMode.PodsInsecure? {
      if k.hostKind(ip).HostName? {
        return [], NoItems;
      }
      return [Answer(ip, 0, k.ttl, ZonePath(zone, QUERY_PREFIX) + [POD, namespace, podname])], NoError;
    }

    pods, err := [], NoItems;
    if Wildcard(podname) && !Wildcard(namespace) {
      if k.NamespaceExposed(namespace) {
        err := NoError;
      }
    }
    var indexed := k.PodIndex(ip);
    ghost var step := (p: Pod) => PodAnswers(k, r, zone, ip, p);
    for i := 0 to |indexed|
      invariant pods == FlatMap(step, indexed[..i])
      invariant err == if pods == [] then DefaultError(k, r) else NoError
    {
      FlatMapNext(step, indexed, i);
      var p := indexed[i];
      if Wildcard(namespace) && !k.NamespaceExposed(p.namespace) {
        continue;
      }
      if ip == p.podIP && Match(namespace, p.namespace) {
        pods := pods + [Answer(ip, 0, k.ttl, ZonePath(zone, QUERY_PREFIX) + [POD, namespace, podname])];
        err := NoError;
      }
    }
    assert indexed[..|indexed|] == indexed;
  }

  // ---------------------------------------------------------------------------------------------
  // Records
  // ---------------------------------------------------------------------------------------------

  /** A name below one of the two reverse trees. */
  predicate IsReverse(name: Name) {
    && |name| >= 3
    && name[|name| - 1] == "arpa"
    && (name[|name| - 2] == "in-addr" || name[|name| - 2] == "ip6")
  }

  /** The answer to a parsed request for a name. */
  function Resolved(k: Kube, r: RecordRequest, name: Name, zone: Name): Lookup {
    if r.podOrSvc == "" then Lookup([], NoError)
    else if IsReverse(name) then Lookup([], NoItems)
    else if !Wildcard(r.namespace) && !k.NamespaceExposed(r.namespace) then Lookup([], NsNotExposed)
    else if r.podOrSvc == POD then PodsFound(k, r, zone)
    else Found(k, r, zone)
  }

  /** The answer to a query for qname, which is lower-cased first. */
  function RecordsFor(k: Kube, qname: Name, zone: Name): Lookup
    requires ProperName(qname)
  {
    var name := LowerAll(qname);
    match RequestOf(TrimZone(name, zone))
    case InvalidRequest => Lookup([], InvalidName)
    case Parsed(r) => Resolved(k, r, name, zone)
  }

  method Records(k: Kube, qname: Name, zone: Name) returns (answers: seq<Answer>, err: Error)
    requires ProperName(qname)
    ensures Lookup(answers, err) == RecordsFor(k, qname, zone)
  {
    var name := LowerAll(qname);
    var parsed := ParseRequest(name, zone);
    if parsed.InvalidRequest? {
      return [], InvalidName;
    }
    var r := parsed.request;
    if r.podOrSvc == "" {
      return [], NoError;
    }
    if IsReverse(name) {
      return [], NoItems;
    }
    if !Wildcard(r.namespace) && !k.NamespaceExposed(r.namespace) {
      return [], NsNotExposed;
    }
    if r.podOrSvc == POD {
      answers, err := FindPods(k, r, zone);
    } else {
      answers, err := FindServices(k, r, zone);
    }
  }
}
