/** The transfer of a whole zone: its records, framed between two SOA records. */
module ZoneTransfer {
  import opened Parse
  import opened Backend
  import opened Transfer
  import opened Agreement
  import opened PortAgreement
  import opened Framing

  datatype ZoneRecord = SOARecord | Listed(rr: Record)

  function Wrapped(records: seq<Record>): seq<ZoneRecord> {
    seq(|records|, i requires 0 <= i < |records| => Listed(records[i]))
  }

  /** The records of a zone, in the order they are sent. */
  function Framed(k: Kube, zone: Name): seq<ZoneRecord> {
    [SOARecord] + Wrapped(TransferRecords(k, zone)) + [SOARecord]
  }

  method TransferZone(k: Kube, zone: Name, size: ZoneRecord -> nat) returns (result: TransferResult<ZoneRecord>)
    ensures result.ServerFailure? <==> TransferRecords(k, zone) == []
    ensures result.Sent? ==> Concat(result.envelopes) == Framed(k, zone) && Bounded(size, result.envelopes)
  {
    var rrs := new RecordChannel();
    SendZone(rrs, k, zone);
    var records := [];
    for i := 0 to |rrs.sent|
      invariant records == Wrapped(rrs.sent[..i])
    {
      records := records + [Listed(rrs.sent[i])];
    }
    assert rrs.sent[..|rrs.sent|] == TransferRecords(k, zone);
    result := Framing.Transfer(size, SOARecord, records);
  }

  // ---------------------------------------------------------------------------------------------
  // The envelopes and the queries agree.
  // ---------------------------------------------------------------------------------------------

  /** Some envelope holds the record. */
  ghost predicate Carries(envelopes: seq<seq<ZoneRecord>>, rr: Record) {
    exists e :: e in envelopes && Listed(rr) in e
  }

  lemma {:induction false} ConcatHolds<R>(envelopes: seq<seq<R>>, r: R)
    ensures r in Concat(envelopes) <==> exists e :: e in envelopes && r in e
  {
    if envelopes != [] {
      var n := |envelopes| - 1;
      ConcatHolds(envelopes[..n], r);
      assert forall e :: e in envelopes <==> e in envelopes[..n] || e == envelopes[n];
    }
  }

  lemma CarriesIff(k: Kube, zone: Name, envelopes: seq<seq<ZoneRecord>>, rr: Record)
    requires Concat(envelopes) == Framed(k, zone)
    ensures Carries(envelopes, rr) <==> rr in TransferRecords(k, zone)
  {
    ConcatHolds(envelopes, Listed(rr));
    var records := TransferRecords(k, zone);
    if rr in records {
      var i :| 0 <= i < |records| && records[i] == rr;
      assert Wrapped(records)[i] == Listed(rr);
    }
  }

  /** However a zone is cut into envelopes, they carry an address under a service name exactly when
      the query for that name answers it, except for services hidden as empty; and under an endpoint
      name exactly when the query answers it and the service is headless. */
  lemma EnvelopesAgree(k: Kube, zone: Name, envelopes: seq<seq<ZoneRecord>>, host: string, name: string, ns: string,
                       ip: string)
    requires Concat(envelopes) == Framed(k, zone) && WellFormed(k) && ForwardZone(zone)
    requires ExactLabel(host) && ExactLabel(name) && ExactLabel(ns) && !k.hostKind(ip).HostName?
    ensures ProperName(ServiceName(zone, name, ns)) && ProperName(EndpointName(zone, host, name, ns))
    ensures AnswersHost(k, ServiceName(zone, name, ns), zone, ip) <==>
            Carries(envelopes, AddressRecordOf(k, ServiceName(zone, name, ns), ip)) && Unhidden(k, name, ns)
    ensures Carries(envelopes, AddressRecordOf(k, EndpointName(zone, host, name, ns), ip)) <==>
            AnswersHost(k, EndpointName(zone, host, name, ns), zone, ip) && HeadlessNamed(k, name, ns)
  {
    EndpointNameAgreement(k, zone, host, name, ns, ip);
    CarriesIff(k, zone, envelopes, AddressRecordOf(k, EndpointName(zone, host, name, ns), ip));
    ServiceNameAgreement(k, zone, name, ns, ip);
    CarriesIff(k, zone, envelopes, AddressRecordOf(k, ServiceName(zone, name, ns), ip));
  }

  /** With ignore-empty off every record in every envelope is answered by the query for its owner. */
  lemma EnvelopesAnswered(k: Kube, zone: Name, envelopes: seq<seq<ZoneRecord>>, rr: Record)
    requires Concat(envelopes) == Framed(k, zone) && WellFormed(k) && ForwardZone(zone) && !k.ignoreEmptyService
    requires Carries(envelopes, rr)
    ensures Answered(k, zone, rr)
  {
    CarriesIff(k, zone, envelopes, rr);
    EveryRecordAnswered(k, zone, rr);
  }
}
