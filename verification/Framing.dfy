/** Cutting a transfer into envelopes. */
module Framing {

  const TRANSFER_LENGTH := 2000

  function TotalSize<R>(size: R -> nat, records: seq<R>): nat {
    if records == [] then 0 else TotalSize(size, records[..|records| - 1]) + size(records[|records| - 1])
  }

  lemma {:induction false} TotalSizeConcat<R>(size: R -> nat, a: seq<R>, b: seq<R>)
    ensures TotalSize(size, a + b) == TotalSize(size, a) + TotalSize(size, b)
  {
    if b == [] {
      assert a + b == a;
    } else {
      assert (a + b)[..|a + b| - 1] == a + b[..|b| - 1];
      TotalSizeConcat(size, a, b[..|b| - 1]);
    }
  }

  lemma TotalSizeSnoc<R>(size: R -> nat, records: seq<R>, r: R)
    ensures TotalSize(size, records + [r]) == TotalSize(size, records) + size(r)
  {
    assert (records + [r])[..|records|] == records;
  }

  function Concat<R>(envelopes: seq<seq<R>>): seq<R> {
    if envelopes == [] then [] else Concat(envelopes[..|envelopes| - 1]) + envelopes[|envelopes| - 1]
  }

  lemma ConcatSnoc<R>(envelopes: seq<seq<R>>, envelope: seq<R>)
    ensures Concat(envelopes + [envelope]) == Concat(envelopes) + envelope
  {
    assert (envelopes + [envelope])[..|envelopes|] == envelopes;
  }

  /** What counts against the limit in the last envelope: everything in the first envelope, but
      not the record that overflowed the previous one. */
  function Charged<R>(size: R -> nat, envelopes: seq<seq<R>>): nat
    requires envelopes != []
  {
    var last := envelopes[|envelopes| - 1];
    if |envelopes| == 1 || last == [] then TotalSize(size, last) else TotalSize(size, last[1..])
  }

  /** next may follow envelopes: it is charged no more than the limit, and it was started because
      its first record would have overflowed the envelope before it. */
  ghost predicate Follows<R>(size: R -> nat, envelopes: seq<seq<R>>, next: seq<R>) {
    if envelopes == [] then TotalSize(size, next) <= TRANSFER_LENGTH
    else
      && next != []
      && TotalSize(size, next[1..]) <= TRANSFER_LENGTH
      && Charged(size, envelopes) + size(next[0]) > TRANSFER_LENGTH
  }

  ghost predicate Bounded<R>(size: R -> nat, envelopes: seq<seq<R>>) {
    envelopes != [] ==>
      var n := |envelopes| - 1;
      Bounded(size, envelopes[..n]) && Follows(size, envelopes[..n], envelopes[n])
  }

  lemma BoundedSnoc<R>(size: R -> nat, envelopes: seq<seq<R>>, next: seq<R>)
    requires Bounded(size, envelopes) && Follows(size, envelopes, next)
    ensures Bounded(size, envelopes + [next])
  {
    assert (envelopes + [next])[..|envelopes|] == envelopes;
  }

  /** The records sent so far, and what has been charged since the last flush. */
  ghost predicate Pending<R>(size: R -> nat, records: seq<R>, envelopes: seq<seq<R>>, j: nat, i: nat)
    requires j <= i <= |records|
  {
    && Concat(envelopes) == records[..j] && Bounded(size, envelopes)
    && (envelopes == [] ==> j == 0)
    && (envelopes != [] ==> j < i && Charged(size, envelopes) + size(records[j]) > TRANSFER_LENGTH)
    && TotalSize(size, records[(if envelopes == [] then 0 else j + 1)..i]) <= TRANSFER_LENGTH
  }

  /** Sending what is pending keeps the envelopes bounded, and carries the records up to i. */
  lemma Flush<R>(size: R -> nat, records: seq<R>, envelopes: seq<seq<R>>, j: nat, i: nat)
    requires j <= i <= |records| && Pending(size, records, envelopes, j, i)
    ensures Bounded(size, envelopes + [records[j..i]])
    ensures Concat(envelopes + [records[j..i]]) == records[..i]
    ensures Charged(size, envelopes + [records[j..i]])
            == TotalSize(size, records[(if envelopes == [] then 0 else j + 1)..i])
  {
    assert envelopes != [] ==> records[j..i][1..] == records[j + 1..i];
    BoundedSnoc(size, envelopes, records[j..i]);
    ConcatSnoc(envelopes, records[j..i]);
    assert records[..j] + records[j..i] == records[..i];
  }

  /** Charging for one more record. */
  lemma Charge<R>(size: R -> nat, records: seq<R>, start: nat, i: nat)
    requires start <= i < |records|
    ensures TotalSize(size, records[start..i + 1]) == TotalSize(size, records[start..i]) + size(records[i])
  {
    assert records[start..i + 1] == records[start..i] + [records[i]];
    TotalSizeSnoc(size, records[start..i], records[i]);
  }

  method Envelopes<R>(size: R -> nat, records: seq<R>) returns (envelopes: seq<seq<R>>)
    ensures Concat(envelopes) == records
    ensures Bounded(size, envelopes)
    ensures envelopes == [] <==> records == []
    ensures envelopes != [] ==> (envelopes[0] == [] <==> size(records[0]) > 2000)
  {
    envelopes := [];
    var j, l := 0, 0;
    for i := 0 to |records|
      invariant 0 <= j <= i
      invariant Pending(size, records, envelopes, j, i)
      invariant l == TotalSize(size, records[(if envelopes == [] then 0 else j + 1)..i])
      invariant envelopes != [] ==> (envelopes[0] == [] <==> size(records[0]) > TRANSFER_LENGTH)
      invariant envelopes == [] && i > 0 ==> size(records[0]) <= TRANSFER_LENGTH
    {
      ghost var start := if envelopes == [] then 0 else j + 1;
      Charge(size, records, start, i);
      l := l + size(records[i]);
      if l > TRANSFER_LENGTH {
        Flush(size, records, envelopes, j, i);
        envelopes := envelopes + [records[j..i]];
        l := 0;
        j := i;
      }
    }
    if j < |records| {
      Flush(size, records, envelopes, j, |records|);
      assert records[j..] == records[j..|records|] && records[..|records|] == records;
      envelopes := envelopes + [records[j..]];
    }
  }

  /** An envelope never exceeds the limit by more than its first record, and only the first
      envelope can be empty. */
  lemma {:induction false} EnvelopeSize<R>(size: R -> nat, envelopes: seq<seq<R>>, i: nat)
    requires Bounded(size, envelopes) && i < |envelopes|
    ensures i == 0 ==> TotalSize(size, envelopes[0]) <= 2000
    ensures i > 0 ==> envelopes[i] != [] && TotalSize(size, envelopes[i]) <= 2000 + size(envelopes[i][0])
  {
    var n := |envelopes| - 1;
    if i < n {
      EnvelopeSize(size, envelopes[..n], i);
    } else if i > 0 {
      FirstRecord(size, envelopes[i]);
    }
  }

  lemma FirstRecord<R>(size: R -> nat, records: seq<R>)
    requires records != []
    ensures TotalSize(size, records) == size(records[0]) + TotalSize(size, records[1..])
  {
    assert records == [records[0]] + records[1..];
    TotalSizeConcat(size, [records[0]], records[1..]);
    TotalSizeSnoc(size, [], records[0]);
    assert [] + [records[0]] == [records[0]];
  }

  /** Every flush inside the loop is paid for by records that exceed the limit together. */
  lemma {:induction false} FlushCount<R>(size: R -> nat, envelopes: seq<seq<R>>)
    requires Bounded(size, envelopes) && envelopes != []
    ensures (|envelopes| - 1) * 2001 + Charged(size, envelopes) <= TotalSize(size, Concat(envelopes))
  {
    var n := |envelopes| - 1;
    TotalSizeConcat(size, Concat(envelopes[..n]), envelopes[n]);
    if n > 0 {
      FlushCount(size, envelopes[..n]);
      FirstRecord(size, envelopes[n]);
    }
  }

  datatype TransferResult<R> = ServerFailure | Sent(envelopes: seq<seq<R>>)

  /** A transfer of the zone's records, between two copies of its SOA record. An empty zone fails. */
  method Transfer<R>(size: R -> nat, soa: R, zoneRecords: seq<R>) returns (result: TransferResult<R>)
    ensures result.ServerFailure? <==> zoneRecords == []
    ensures result.Sent? ==>
              && Concat(result.envelopes) == [soa] + zoneRecords + [soa]
              && Bounded(size, result.envelopes)
              && (size(soa) <= 2000 ==> result.envelopes[0] != [] && result.envelopes[0][0] == soa)
              && var last := result.envelopes[|result.envelopes| - 1];
                 last != [] && last[|last| - 1] == soa
  {
    if |zoneRecords| == 0 {
      return ServerFailure;
    }
    var records := [soa] + zoneRecords;
    records := records + [soa];
    var envelopes := Envelopes(size, records);
    ConcatEnds(envelopes);
    result := Sent(envelopes);
  }

  /** The first and last records of the concatenation are those of the first and last envelopes. */
  lemma {:induction false} ConcatEnds<R>(envelopes: seq<seq<R>>)
    requires envelopes != []
    ensures envelopes[0] != [] ==> Concat(envelopes) != [] && Concat(envelopes)[0] == envelopes[0][0]
    ensures var last := envelopes[|envelopes| - 1];
            last != [] ==> Concat(envelopes) != [] && Concat(envelopes)[|Concat(envelopes)| - 1] == last[|last| - 1]
  {
    if |envelopes| > 1 {
      ConcatEnds(envelopes[..|envelopes| - 1]);
    } else {
      assert Concat(envelopes[..0]) == [];
    }
  }
}
