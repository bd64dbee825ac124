/** The informer's processing function: a list of deltas updates a store and notifies handlers. */
module Informer {

  /** Objects are stored under their namespace and name. */
  type Key = (string, string)

  datatype Conversion<Obj> = Converted(obj: Obj) | Terminating(obj: Obj) | Failed

  /** A change to one object. A deletion whose final state was missed only carries the key. */
  datatype Delta<Raw> =
    | Sync(raw: Raw)
    | Added(raw: Raw)
    | Updated(raw: Raw)
    | Deleted(raw: Raw)
    | DeletedUnknown(key: Key)
    | OtherDelta

  datatype Notification<Obj> = OnAdd(obj: Obj) | OnUpdate(before: Obj, obj: Obj) | OnDelete(key: Key)

  /** How raw objects become stored objects, and where those are kept. */
  datatype Source<!Raw, !Obj> = Source(convert: Raw -> Conversion<Obj>, keyOf: Obj -> Key)
  {
    /** Processing stops at a delta that cannot be converted. Deleting a terminating pod can. */
    predicate Fails(d: Delta<Raw>) {
      match d
      case Sync(raw) => !convert(raw).Converted?
      case Added(raw) => !convert(raw).Converted?
      case Updated(raw) => !convert(raw).Converted?
      case Deleted(raw) => convert(raw).Failed?
      case DeletedUnknown(_) => false
      case OtherDelta => false
    }

    predicate Upserts(d: Delta<Raw>) {
      d.Sync? || d.Added? || d.Updated?
    }

    function DeletedKey(d: Delta<Raw>): Key
      requires (d.Deleted? || d.DeletedUnknown?) && !Fails(d)
    {
      if d.DeletedUnknown? then d.key else keyOf(convert(d.raw).obj)
    }
  }

  /** What a delta does to the store. */
  function Apply<Raw, Obj>(src: Source<Raw, Obj>, store: map<Key, Obj>, d: Delta<Raw>): map<Key, Obj>
    requires !src.Fails(d)
  {
    if src.Upserts(d) then
      var obj := src.convert(d.raw).obj;
      store[src.keyOf(obj) := obj]
    else if d.OtherDelta? then store
    else store - {src.DeletedKey(d)}
  }

  /** The notification a delta causes. */
  function Note<Raw, Obj>(src: Source<Raw, Obj>, store: map<Key, Obj>, d: Delta<Raw>): seq<Notification<Obj>>
    requires !src.Fails(d)
  {
    if src.Upserts(d) then
      var obj := src.convert(d.raw).obj;
      var key := src.keyOf(obj);
      if key in store then [OnUpdate(store[key], obj)] else [OnAdd(obj)]
    else if d.OtherDelta? then []
    else [OnDelete(src.DeletedKey(d))]
  }

  /** How many deltas precede the first one that fails. */
  function GoodPrefix<Raw, Obj>(src: Source<Raw, Obj>, deltas: seq<Delta<Raw>>): (n: nat)
    ensures n <= |deltas|
    ensures forall i :: 0 <= i < n ==> !src.Fails(deltas[i])
    ensures n < |deltas| ==> src.Fails(deltas[n])
  {
    if deltas == [] || src.Fails(deltas[0]) then 0 else 1 + GoodPrefix(src, deltas[1..])
  }

  predicate AllGood<Raw, Obj>(src: Source<Raw, Obj>, deltas: seq<Delta<Raw>>) {
    forall i :: 0 <= i < |deltas| ==> !src.Fails(deltas[i])
  }

  /** The fold of a list of convertible deltas over a store. */
  function Fold<Raw, Obj>(src: Source<Raw, Obj>, store: map<Key, Obj>, deltas: seq<Delta<Raw>>): map<Key, Obj>
    requires AllGood(src, deltas)
  {
    if deltas == [] then store
    else
      var n := |deltas| - 1;
      Apply(src, Fold(src, store, deltas[..n]), deltas[n])
  }

  function Notes<Raw, Obj>(src: Source<Raw, Obj>, store: map<Key, Obj>, deltas: seq<Delta<Raw>>): seq<Notification<Obj>>
    requires AllGood(src, deltas)
  {
    if deltas == [] then []
    else
      var n := |deltas| - 1;
      Notes(src, store, deltas[..n]) + Note(src, Fold(src, store, deltas[..n]), deltas[n])
  }

  /** The delta brings an object that cannot be stored, or takes one away that cannot be read at all.
      Taking away a terminating object is no obstacle. */
  predicate Stops<Raw, Obj>(src: Source<Raw, Obj>, d: Delta<Raw>) {
    || ((d.Sync? || d.Added? || d.Updated?) && !src.convert(d.raw).Converted?)
    || (d.Deleted? && src.convert(d.raw).Failed?)
  }

  /** The store behind an informer, with the notifications its handlers received. */
  class Processor<!Raw, Obj> {
    const src: Source<Raw, Obj>
    var clientState: map<Key, Obj>
    var log: seq<Notification<Obj>>

    constructor (src: Source<Raw, Obj>, clientState: map<Key, Obj>)
      ensures this.src == src && this.clientState == clientState && log == []
    {
      this.src, this.clientState, log := src, clientState, [];
    }

    /** Processes one delta, unless it cannot be converted. */
    method ProcessOne(d: Delta<Raw>) returns (ok: bool)
      modifies this
      ensures ok == !src.Fails(d)
      ensures ok ==> clientState == Apply(src, old(clientState), d) && log == old(log) + Note(src, old(clientState), d)
      ensures !ok ==> clientState == old(clientState) && log == old(log)
    {
      match d {
        case DeletedUnknown(key) =>
          clientState := clientState - {key};
          log := log + [OnDelete(key)];
        case Deleted(raw) =>
          var converted := src.convert(raw);
          if converted.Failed? {
            return false;
          }
          clientState := clientState - {src.keyOf(converted.obj)};
          log := log + [OnDelete(src.keyOf(converted.obj))];
        case OtherDelta =>
        case _ =>
          var converted := src.convert(d.raw);
          if !converted.Converted? {
            return false;
          }
          var obj := converted.obj;
          var key := src.keyOf(obj);
          if key in clientState {
            var previous := clientState[key];
            clientState := clientState[key := obj];
            log := log + [OnUpdate(previous, obj)];
          } else {
            clientState := clientState[key := obj];
            log := log + [OnAdd(obj)];
          }
      }
      ok := true;
    }

    /** Works through the deltas, stopping at the first that cannot be converted. */
    method Process(deltas: seq<Delta<Raw>>) returns (ok: bool)
      modifies this
      ensures var good := deltas[..GoodPrefix(src, deltas)];
              && ok == (good == deltas)
              && clientState == Fold(src, old(clientState), good)
              && log == old(log) + Notes(src, old(clientState), good)
      ensures ok <==> forall i :: 0 <= i < |deltas| ==> !Stops(src, deltas[i])
    {
      ghost var before, earlier := clientState, log;
      for i := 0 to |deltas|
        invariant i <= GoodPrefix(src, deltas)
        invariant clientState == Fold(src, before, deltas[..i])
        invariant log == earlier + Notes(src, before, deltas[..i])
      {
        assert deltas[..i + 1][..i] == deltas[..i];
        var converted := ProcessOne(deltas[i]);
        if !converted {
          return false;
        }
      }
      assert deltas[..|deltas|] == deltas;
      ok := true;
    }
  }

  /** Processing gets as far as the first delta that stops it. */
  lemma StopsAtFirst<Raw, Obj>(src: Source<Raw, Obj>, deltas: seq<Delta<Raw>>, n: nat)
    requires n <= |deltas| && (forall i :: 0 <= i < n ==> !Stops(src, deltas[i]))
    requires n < |deltas| ==> Stops(src, deltas[n])
    ensures GoodPrefix(src, deltas) == n
  {
  }

  /** What the delta takes away: the object of a deletion, be it terminating or not, or just a key. */
  predicate TakesAway<Raw, Obj>(src: Source<Raw, Obj>, d: Delta<Raw>, key: Key) {
    match d
    case Deleted(raw) => !src.convert(raw).Failed? && src.keyOf(src.convert(raw).obj) == key
    case DeletedUnknown(gone) => gone == key
    case _ => false
  }

  /** What the delta brings. */
  predicate Brings<Raw, Obj>(src: Source<Raw, Obj>, d: Delta<Raw>, key: Key) {
    match d
    case Sync(raw) => src.convert(raw).Converted? && src.keyOf(src.convert(raw).obj) == key
    case Added(raw) => src.convert(raw).Converted? && src.keyOf(src.convert(raw).obj) == key
    case Updated(raw) => src.convert(raw).Converted? && src.keyOf(src.convert(raw).obj) == key
    case _ => false
  }

  lemma NothingStops<Raw, Obj>(src: Source<Raw, Obj>, deltas: seq<Delta<Raw>>)
    requires forall i :: 0 <= i < |deltas| ==> !Stops(src, deltas[i])
    ensures AllGood(src, deltas) && deltas[..GoodPrefix(src, deltas)] == deltas
  {
    StopsAtFirst(src, deltas, |deltas|);
  }

  /** Of a list that nothing stops, the last delta about a key decides: what it brings is stored and
      announced, and what it takes away, terminating or not, is gone and announced as deleted. */
  lemma LastSay<Raw, Obj>(src: Source<Raw, Obj>, store: map<Key, Obj>, deltas: seq<Delta<Raw>>, i: nat, key: Key)
    requires i < |deltas| && forall j :: 0 <= j < |deltas| ==> !Stops(src, deltas[j])
    requires forall j :: i < j < |deltas| ==> !Brings(src, deltas[j], key) && !TakesAway(src, deltas[j], key)
    ensures AllGood(src, deltas)
    ensures TakesAway(src, deltas[i], key) ==>
              key !in Fold(src, store, deltas) && OnDelete(key) in Notes(src, store, deltas)
    ensures Brings(src, deltas[i], key) ==>
              key in Fold(src, store, deltas) && Fold(src, store, deltas)[key] == src.convert(deltas[i].raw).obj
  {
    NothingStops(src, deltas);
    if TakesAway(src, deltas[i], key) || Brings(src, deltas[i], key) {
      LastDeltaWins(src, store, deltas, i, key);
    }
    if TakesAway(src, deltas[i], key) {
      NotedAt(src, store, deltas, i, OnDelete(key));
    }
  }

  lemma {:induction false} NotedAt<Raw, Obj>(src: Source<Raw, Obj>, store: map<Key, Obj>, deltas: seq<Delta<Raw>>,
                                             i: nat, note: Notification<Obj>)
    requires AllGood(src, deltas) && i < |deltas| && note in Note(src, Fold(src, store, deltas[..i]), deltas[i])
    ensures note in Notes(src, store, deltas)
  {
    var n := |deltas| - 1;
    if i < n {
      assert deltas[..n][..i] == deltas[..i];
      NotedAt(src, store, deltas[..n], i, note);
    }
  }

  // ---------------------------------------------------------------------------------------------
  // The notifications are a faithful log of the store.
  // ---------------------------------------------------------------------------------------------

  /** What a handler that only sees notifications believes the store to be. */
  function Replay<Obj>(keyOf: Obj -> Key, store: map<Key, Obj>, notes: seq<Notification<Obj>>): map<Key, Obj> {
    if notes == [] then store
    else
      var n := |notes| - 1;
      Heard(keyOf, Replay(keyOf, store, notes[..n]), notes[n])
  }

  function Heard<Obj>(keyOf: Obj -> Key, before: map<Key, Obj>, note: Notification<Obj>): map<Key, Obj> {
    match note
    case OnAdd(obj) => before[keyOf(obj) := obj]
    case OnUpdate(_, obj) => before[keyOf(obj) := obj]
    case OnDelete(key) => before - {key}
  }

  /** Additions are of absent keys, and updates carry the object stored under the same key. */
  ghost predicate Faithful<Obj>(keyOf: Obj -> Key, store: map<Key, Obj>, notes: seq<Notification<Obj>>) {
    notes != [] ==>
      var n := |notes| - 1;
      Faithful(keyOf, store, notes[..n]) && Fits(keyOf, Replay(keyOf, store, notes[..n]), notes[n])
  }

  ghost predicate Fits<Obj>(keyOf: Obj -> Key, before: map<Key, Obj>, note: Notification<Obj>) {
    match note
    case OnAdd(obj) => keyOf(obj) !in before
    case OnUpdate(was, obj) => keyOf(obj) in before && before[keyOf(obj)] == was
    case OnDelete(_) => true
  }

  lemma FaithfulSnoc<Obj>(keyOf: Obj -> Key, store: map<Key, Obj>, notes: seq<Notification<Obj>>,
                          note: Notification<Obj>)
    requires Faithful(keyOf, store, notes) && Fits(keyOf, Replay(keyOf, store, notes), note)
    ensures Faithful(keyOf, store, notes + [note])
    ensures Replay(keyOf, store, notes + [note]) == Heard(keyOf, Replay(keyOf, store, notes), note)
  {
    assert (notes + [note])[..|notes|] == notes;
  }

  /** Replaying the notifications from the initial store reproduces the final store. */
  lemma {:induction false} ReplayReproduces<Raw, Obj>(src: Source<Raw, Obj>, store: map<Key, Obj>,
                                                      deltas: seq<Delta<Raw>>)
    requires AllGood(src, deltas)
    ensures Replay(src.keyOf, store, Notes(src, store, deltas)) == Fold(src, store, deltas)
    ensures Faithful(src.keyOf, store, Notes(src, store, deltas))
  {
    if deltas != [] {
      var n := |deltas| - 1;
      ReplayReproduces(src, store, deltas[..n]);
      var earlier, before := Notes(src, store, deltas[..n]), Fold(src, store, deltas[..n]);
      ReplayNote(src, store, earlier, before, deltas[n]);
    }
  }

  lemma ReplayNote<Raw, Obj>(src: Source<Raw, Obj>, store: map<Key, Obj>, earlier: seq<Notification<Obj>>,
                             before: map<Key, Obj>, d: Delta<Raw>)
    requires !src.Fails(d) && Faithful(src.keyOf, store, earlier) && Replay(src.keyOf, store, earlier) == before
    ensures Faithful(src.keyOf, store, earlier + Note(src, before, d))
    ensures Replay(src.keyOf, store, earlier + Note(src, before, d)) == Apply(src, before, d)
  {
    var note := Note(src, before, d);
    if note == [] {
      assert earlier + note == earlier;
    } else {
      assert note == [note[0]];
      FaithfulSnoc(src.keyOf, store, earlier, note[0]);
    }
  }

  /** The object stored under a key is the one the last delta about that key brought. */
  lemma {:induction false} LastDeltaWins<Raw, Obj>(src: Source<Raw, Obj>, store: map<Key, Obj>,
                                                   deltas: seq<Delta<Raw>>, i: nat, key: Key)
    requires AllGood(src, deltas) && i < |deltas|
    requires forall j :: i < j < |deltas| ==> !Concerns(src, deltas[j], key)
    requires Concerns(src, deltas[i], key)
    ensures key in Fold(src, store, deltas) <==> src.Upserts(deltas[i])
    ensures src.Upserts(deltas[i]) ==> Fold(src, store, deltas)[key] == src.convert(deltas[i].raw).obj
  {
    var n := |deltas| - 1;
    if i < n {
      LastDeltaWins(src, store, deltas[..n], i, key);
    }
  }

  predicate Concerns<Raw, Obj>(src: Source<Raw, Obj>, d: Delta<Raw>, key: Key)
    requires !src.Fails(d)
  {
    if src.Upserts(d) then src.keyOf(src.convert(d.raw).obj) == key
    else !d.OtherDelta? && src.DeletedKey(d) == key
  }
}
