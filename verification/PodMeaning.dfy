/** What the pod query means: which pods it answers, how often, and with which error. */
module PodMeaning {
  import opened Sequences
  import opened Text
  import opened Objects
  import opened Parse
  import opened HostLabel
  import opened Backend
  import opened Meaning
  import opened Records
  import opened Agreement

  /** Pods live in namespaces whose names can be one label of a query. */
  predicate StoredPods(k: Kube) {
    forall p :: p in k.pods ==> StoredLabel(p.namespace)
  }

  /** The pod has the address the label stands for, in a requested and exposed namespace. */
  predicate Serves(k: Kube, r: RecordRequest, p: Pod) {
    && k.NamespaceExposed(p.namespace) && (Wildcard(r.namespace) || r.namespace == p.namespace)
    && p.podIP == DashDecode(r.service)
  }

  lemma ServesMatches(k: Kube, r: RecordRequest, p: Pod)
    requires StoredLabel(p.namespace) && Lower(r.namespace) == r.namespace && Admitted(k, r)
    ensures Serves(k, r, p) <==> PodMatches(k, r, DashDecode(r.service), p)
  {
  }

  /** In verified mode there is one answer for each cached pod that serves the request. */
  lemma VerifiedAnswers(k: Kube, r: RecordRequest, zone: Name)
    requires StoredPods(k) && Lower(r.namespace) == r.namespace && k.podMode.PodsVerified?
    requires Admitted(k, r) && r.service != ""
    ensures |PodsFound(k, r, zone).answers| == |Filter((p: Pod) => Serves(k, r, p), k.pods)|
    ensures forall a :: a in PodsFound(k, r, zone).answers ==> a == PodAnswer(k, r, zone, DashDecode(r.service))
  {
    var ip := DashDecode(r.service);
    var step, serves := (p: Pod) => PodAnswers(k, r, zone, ip, p), (p: Pod) => Serves(k, r, p);
    forall p | p in k.pods
      ensures step(p) == if serves(p) then [PodAnswer(k, r, zone, ip)] else []
    {
      ServesMatches(k, r, p);
    }
    FlatMapFilter(step, (p: Pod) => p.podIP == ip, k.pods);
    FlatMapChosen(step, serves, k.pods, PodAnswer(k, r, zone, ip));
    assert PodsFound(k, r, zone).answers == FlatMap(step, k.pods);
  }

  /** How many answers the query gives: in verified mode one for each pod that serves it, in insecure
      mode one for every label that stands for an address. */
  ghost function AnswerCount(k: Kube, r: RecordRequest): nat {
    if r.service == "" || !Admitted(k, r) then 0
    else match k.podMode
      case PodsDisabled => 0
      case PodsVerified => |Filter((p: Pod) => Serves(k, r, p), k.pods)|
      case PodsInsecure => if k.hostKind(DashDecode(r.service)).HostName? then 0 else 1
  }

  /** The answers are that many copies of the decoded label. There is no error when there is an
      answer; without one the name exists only for an empty label, or in verified mode for a wildcard
      pod in a named namespace. */
  lemma PodQueryMeaning(k: Kube, r: RecordRequest, zone: Name)
    requires StoredPods(k) && Lower(r.namespace) == r.namespace
    ensures |PodsFound(k, r, zone).answers| == AnswerCount(k, r)
    ensures forall a :: a in PodsFound(k, r, zone).answers ==> a == PodAnswer(k, r, zone, DashDecode(r.service))
    ensures PodsFound(k, r, zone).err == NoError <==>
            || AnswerCount(k, r) > 0
            || (&& !k.podMode.PodsDisabled? && Admitted(k, r)
                && (r.service == "" || (k.podMode.PodsVerified? && Wildcard(r.service) && !Wildcard(r.namespace))))
    ensures PodsFound(k, r, zone).err != NoError ==> PodsFound(k, r, zone).err == NoItems
  {
    if k.podMode.PodsVerified? && Admitted(k, r) && r.service != "" {
      VerifiedAnswers(k, r, zone);
    }
  }

  /** Verified answers come exactly from cached pods of exposed namespaces. */
  lemma VerifiedIff(k: Kube, r: RecordRequest, zone: Name, a: Answer)
    requires StoredPods(k) && Lower(r.namespace) == r.namespace && k.podMode.PodsVerified?
    ensures a in PodsFound(k, r, zone).answers <==>
            && r.service != "" && (exists p :: p in k.pods && Serves(k, r, p))
            && a == PodAnswer(k, r, zone, DashDecode(r.service))
  {
    PodQueryMeaning(k, r, zone);
    var serving, answers := Filter((p: Pod) => Serves(k, r, p), k.pods), PodsFound(k, r, zone).answers;
    if answers != [] {
      assert answers[0] in answers;
    }
    if serving != [] {
      assert serving[0] in serving;
    }
    if p :| p in k.pods && Serves(k, r, p) {
      assert p in serving;
      assert Admitted(k, r);
    }
  }

  // ---------------------------------------------------------------------------------------------
  // Every cached pod is found under its dashed address.
  // ---------------------------------------------------------------------------------------------

  function PodLabel(p: Pod): string {
    EndpointHostname(Address(p.podIP, "", "", ""), false)
  }

  function PodName(zone: Name, p: Pod): Name {
    [PodLabel(p), p.namespace, POD] + zone
  }

  function PodRequest(service: string, ns: string): RecordRequest {
    RecordRequest("*", "*", "", service, ns, POD)
  }

  /** Every cached pod of an exposed namespace is answered with its own address under its label. */
  lemma PodRoundTrip(k: Kube, p: Pod, zone: Name)
    requires StoredPods(k) && k.podMode.PodsVerified? && p in k.pods && k.NamespaceExposed(p.namespace)
    requires IPv4Text(p.podIP) || IPv6Text(p.podIP)
    ensures PodLabel(p) != "" && DashDecode(PodLabel(p)) == p.podIP
    ensures var r := PodRequest(PodLabel(p), p.namespace);
            PodAnswer(k, r, zone, p.podIP) in PodsFound(k, r, zone).answers && PodsFound(k, r, zone).err == NoError
  {
    var r := PodRequest(PodLabel(p), p.namespace);
    AddressRoundTrip(Address(p.podIP, "", "", ""), false);
    assert p.podIP != "";
    VerifiedIff(k, r, zone, PodAnswer(k, r, zone, p.podIP));
    assert Serves(k, r, p);
  }

  lemma LowerReplace(s: string, from: char, to: char)
    requires LowerChar(from) == from && LowerChar(to) == to && forall c :: LowerChar(c) == from ==> c == from
    ensures Lower(Replace(s, from, to)) == Replace(Lower(s), from, to)
  {
  }

  /** Decoding keeps a label lower case. */
  lemma DecodeLower(s: string)
    requires Lower(s) == s
    ensures Lower(DashDecode(s)) == DashDecode(s)
  {
    LowerReplace(s, '-', '.');
    LowerReplace(s, '-', ':');
  }

  lemma LabelLower(p: Pod)
    requires Lower(p.podIP) == p.podIP
    ensures Lower(PodLabel(p)) == PodLabel(p)
  {
    LowerReplace(p.podIP, '.', '-');
    LowerReplace(p.podIP, ':', '-');
    assert Lower("") == "";
  }

  /** A query for a pod name asks for its label in lower case. */
  lemma QueryPod(k: Kube, zone: Name, p: Pod)
    requires ForwardZone(zone) && StoredLabel(p.namespace) && PodLabel(p) != "" && k.NamespaceExposed(p.namespace)
    ensures ProperName(PodName(zone, p))
    ensures RecordsFor(k, PodName(zone, p), zone)
            == PodsFound(k, PodRequest(Lower(PodLabel(p)), p.namespace), zone)
  {
    var name := LowerAll(PodName(zone, p));
    NotReverse([PodLabel(p), p.namespace, POD], zone);
    assert Lower(POD) == POD;
    assert TrimZone(name, zone) == [Lower(PodLabel(p)), p.namespace, POD];
    assert RequestOf(TrimZone(name, zone)) == Parsed(PodRequest(Lower(PodLabel(p)), p.namespace));
  }

  /** The name of a cached pod resolves to its address exactly when that is written in lower case:
      queries are lower-cased, the address index is not. */
  lemma PodNameIff(k: Kube, p: Pod, zone: Name)
    requires StoredPods(k) && k.podMode.PodsVerified? && p in k.pods && k.NamespaceExposed(p.namespace)
    requires IPv4Text(p.podIP) || IPv6Text(p.podIP)
    requires ForwardZone(zone)
    ensures ProperName(PodName(zone, p))
    ensures AnswersHost(k, PodName(zone, p), zone, p.podIP) <==> Lower(p.podIP) == p.podIP
  {
    PodRoundTrip(k, p, zone);
    QueryPod(k, zone, p);
    var r := PodRequest(Lower(PodLabel(p)), p.namespace);
    if Lower(p.podIP) == p.podIP {
      LabelLower(p);
      assert PodAnswer(k, r, zone, p.podIP) in RecordsFor(k, PodName(zone, p), zone).answers;
    }
    if a :| a in PodsFound(k, r, zone).answers && a.host == p.podIP {
      PodQueryMeaning(k, r, zone);
      LowerIdempotent(PodLabel(p));
      DecodeLower(r.service);
    }
  }
}
