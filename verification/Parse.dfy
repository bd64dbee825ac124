/** Query names and the requests they stand for. A name is its sequence of labels, leftmost first. */
module Parse {
  import Text

  const SVC := "svc"
  const POD := "pod"

  datatype RecordRequest = RecordRequest(
    port: string,
    protocol: string,
    endpoint: string,
    service: string,
    namespace: string,
    podOrSvc: string)

  const EMPTY_REQUEST := RecordRequest("", "", "", "", "", "")

  datatype ParseResult = Parsed(request: RecordRequest) | InvalidRequest

  type Name = seq<string>

  /** DNS labels are never empty. */
  predicate ProperName(name: Name) {
    forall i :: 0 <= i < |name| ==> name[i] != ""
  }

  /** A name as text: its labels, each followed by a dot. */
  function Fqdn(name: Name): string {
    Text.Join(name, '.') + "."
  }

  /** The labels of a name in text form. */
  function SplitDomainName(text: string): Name {
    if text == "" || text == "." then []
    else if text[|text| - 1] == '.' then Text.Split(text[..|text| - 1], '.')
    else Text.Split(text, '.')
  }

  /** Names made of labels without dots are the same as their text. */
  lemma TextRoundTrip(name: Name)
    requires name != [] && name[0] != "" && forall l :: l in name ==> '.' !in l
    ensures SplitDomainName(Fqdn(name)) == name
  {
    var text := Fqdn(name);
    assert text[..|text| - 1] == Text.Join(name, '.');
    assert Text.Join(name, '.') != "";
    Text.SplitJoin(name, '.');
  }

  /** The labels below the zone; empty when the name is the zone or too short for it. */
  function TrimZone(name: Name, zone: Name): Name {
    if |name| <= |zone| then [] else name[..|name| - |zone|]
  }

  function StripUnderscore(s: string): string
    requires s != ""
  {
    if s[0] != '_' then s else s[1..]
  }

  /** What the labels below the zone ask for. */
  function RequestOf(base: Name): ParseResult
    requires ProperName(base)
  {
    var n := |base|;
    if base == [] || base == [SVC] || base == [POD] then Parsed(EMPTY_REQUEST)
    else if base[n - 1] != POD && base[n - 1] != SVC then InvalidRequest
    else
      var kind := base[n - 1];
      match n
      case 2 => Parsed(RecordRequest("*", "*", "", "", base[0], kind))
      case 3 => Parsed(RecordRequest("*", "*", "", base[0], base[1], kind))
      case 4 => Parsed(RecordRequest("*", "*", base[0], base[1], base[2], kind))
      case 5 => Parsed(RecordRequest(StripUnderscore(base[0]), StripUnderscore(base[1]), "", base[2], base[3], kind))
      case _ => InvalidRequest
  }

  /** Fills the request from the right, one label at a time. */
  method ParseRequest(name: Name, zone: Name) returns (result: ParseResult)
    requires ProperName(name)
    ensures result == RequestOf(TrimZone(name, zone))
  {
    var segs := TrimZone(name, zone);
    var r := EMPTY_REQUEST;
    if segs == [] || segs == [SVC] || segs == [POD] {
      return Parsed(r);
    }
    r := r.(port := "*", protocol := "*");
    var last := |segs| - 1;
    r := r.(podOrSvc := segs[last]);
    if r.podOrSvc != POD && r.podOrSvc != SVC {
      return InvalidRequest;
    }
    last := last - 1;
    if last < 0 {
      return Parsed(r);
    }
    r := r.(namespace := segs[last]);
    last := last - 1;
    if last < 0 {
      return Parsed(r);
    }
    r := r.(service := segs[last]);
    last := last - 1;
    if last < 0 {
      return Parsed(r);
    }
    if last == 0 {
      r := r.(endpoint := segs[last]);
    } else if last == 1 {
      r := r.(protocol := StripUnderscore(segs[last]));
      r := r.(port := StripUnderscore(segs[last - 1]));
    } else {
      return InvalidRequest;
    }
    return Parsed(r);
  }

  // ---------------------------------------------------------------------------------------------
  // The printer: the owner names the resolver publishes.
  // ---------------------------------------------------------------------------------------------

  /** The name below the zone that asks for r. */
  function Print(r: RecordRequest): Name {
    if r.podOrSvc == "" then []
    else if r.service == "" then [r.namespace, r.podOrSvc]
    else if r.endpoint != "" then [r.endpoint, r.service, r.namespace, r.podOrSvc]
    else if r.port == "*" && r.protocol == "*" then [r.service, r.namespace, r.podOrSvc]
    else ["_" + r.port, "_" + r.protocol, r.service, r.namespace, r.podOrSvc]
  }

  /** The requests some name asks for. */
  predicate Canonical(r: RecordRequest) {
    || r == EMPTY_REQUEST
    || (&& (r.podOrSvc == SVC || r.podOrSvc == POD)
        && r.namespace != ""
        && (r.service == "" || r.endpoint != "" ==> r.port == "*" && r.protocol == "*")
        && (r.service == "" ==> r.endpoint == ""))
  }

  /** Printing and parsing are inverse on requests, and parsing yields nothing else. */
  lemma PrintParse(r: RecordRequest, zone: Name)
    requires Canonical(r)
    ensures ProperName(Print(r))
    ensures RequestOf(TrimZone(Print(r) + zone, zone)) == Parsed(r)
  {
    assert TrimZone(Print(r) + zone, zone) == Print(r);
  }

  lemma ParseCanonical(base: Name)
    requires ProperName(base) && RequestOf(base).Parsed?
    ensures Canonical(RequestOf(base).request)
    ensures RequestOf(Print(RequestOf(base).request)) == RequestOf(base)
  {
    PrintParse(RequestOf(base).request, []);
    assert Print(RequestOf(base).request) + [] == Print(RequestOf(base).request);
  }
}
