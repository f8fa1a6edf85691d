/** The shape shared by the task, group and phase slices of the store: a
    dictionary of records keyed by id, the display order of the ids, and a
    counter from which fresh ids are made. The reducers rebuild a slice with
    spread expressions; the operations here are those rebuilds. */
module Slices {
  import opened JsValues
  import opened OrderList

  datatype Slice<R> = Slice(records: map<string, R>, order: seq<string>, next: nat)

  /** The order lists every record once and nothing else. */
  ghost predicate Ordered<R>(s: Slice<R>) {
    Lists(s.order, s.records.Keys)
  }

  /** `prefix + counter`: the id ADD gives its new record. */
  function FreshId(prefix: string, n: nat): string {
    prefix + NatToString(n)
  }

  /** No id the counter will still hand out is taken. */
  ghost predicate CounterAhead<R>(s: Slice<R>, prefix: string) {
    forall n: nat :: FreshId(prefix, n) in s.records ==> n < s.next
  }

  /** ADD: the new record under `id`, appended to the order; the counter
      moves on. */
  function Append<R>(s: Slice<R>, id: string, rec: R): Slice<R> {
    Slice(s.records[id := rec], s.order + [id], s.next + 1)
  }

  /** `{ ...records, [id]: rec }`: EDIT and TOGGLE write one record back. */
  function Put<R>(s: Slice<R>, id: string, rec: R): Slice<R> {
    s.(records := s.records[id := rec])
  }

  /** REMOVE: drop the id from the dictionary and filter it out of the order. */
  function Remove<R>(s: Slice<R>, id: string): Slice<R> {
    s.(records := s.records - {id}, order := Without(s.order, id))
  }

  /** Adding under an id not yet present keeps the order a listing of the
      records, leaves the other records alone and puts the id last. */
  lemma AppendOrdered<R>(s: Slice<R>, id: string, rec: R)
    requires Ordered(s) && id !in s.records
    ensures Ordered(Append(s, id, rec))
    ensures Append(s, id, rec).order[|s.order|] == id
    ensures forall k :: k in s.records ==>
              k in Append(s, id, rec).records && Append(s, id, rec).records[k] == s.records[k]
  {
    var r := Append(s, id, rec);
    assert r.order == InsertAt(s.order, |s.order|, id);
    InsertKeepsLists(s.order, s.records.Keys, |s.order|, id);
  }

  /** Adding under an id not yet present and splicing it into the order at
      any position keeps the order a listing of the records. */
  lemma InsertOrdered<R>(s: Slice<R>, k: nat, id: string, rec: R, next: nat)
    requires Ordered(s) && id !in s.records && k <= |s.order|
    ensures Ordered(Slice(s.records[id := rec], InsertAt(s.order, k, id), next))
  {
    InsertKeepsLists(s.order, s.records.Keys, k, id);
    assert s.records[id := rec].Keys == s.records.Keys + {id};
  }

  /** Writing back a record keeps the order a listing exactly when the id was
      already present: an unknown id creates a record that is in no order. */
  lemma PutOrdered<R>(s: Slice<R>, id: string, rec: R)
    requires Ordered(s)
    ensures Ordered(Put(s, id, rec)) <==> id in s.records
  {
    if id !in s.records {
      assert id in Put(s, id, rec).records && id !in Put(s, id, rec).order;
    } else {
      assert Put(s, id, rec).records.Keys == s.records.Keys;
    }
  }

  /** Removing any id, present or not, keeps the order a listing of the
      records; the id is gone from both and every other record is kept. */
  lemma RemoveOrdered<R>(s: Slice<R>, id: string)
    requires Ordered(s)
    ensures Ordered(Remove(s, id))
    ensures id !in Remove(s, id).records && id !in Remove(s, id).order
    ensures forall k :: k in s.records && k != id ==>
              k in Remove(s, id).records && Remove(s, id).records[k] == s.records[k]
  {
  }

  /** Moving an id up or down keeps the order a listing of the records. */
  lemma MoveOrdered<R>(s: Slice<R>, id: string)
    requires Ordered(s)
    ensures Ordered(s.(order := MovedUp(s.order, id)))
    ensures Ordered(s.(order := MovedDown(s.order, id)))
  {
    MultisetKeepsMembers(s.order, MovedUp(s.order, id));
    MultisetKeepsMembers(s.order, MovedDown(s.order, id));
  }

  lemma MultisetKeepsMembers(a: seq<string>, b: seq<string>)
    requires multiset(a) == multiset(b)
    ensures forall x :: x in a <==> x in b
  {
    forall x ensures x in a <==> x in b {
      assert x in a <==> x in multiset(a);
      assert x in b <==> x in multiset(b);
    }
  }

  /** The id the counter hands out next is free, and once it is used the
      counter is still ahead. */
  lemma AppendFresh<R>(s: Slice<R>, prefix: string, rec: R)
    requires CounterAhead(s, prefix)
    ensures FreshId(prefix, s.next) !in s.records
    ensures CounterAhead(Append(s, FreshId(prefix, s.next), rec), prefix)
  {
    var r := Append(s, FreshId(prefix, s.next), rec);
    forall n: nat | FreshId(prefix, n) in r.records ensures n < r.next {
      if FreshId(prefix, n) == FreshId(prefix, s.next) {
        PrefixedInjective(prefix, n, s.next);
      }
    }
  }

  /** Writing back a record under an id that is not fresh keeps the counter
      ahead. */
  lemma PutFresh<R>(s: Slice<R>, prefix: string, id: string, rec: R)
    requires CounterAhead(s, prefix) && id in s.records
    ensures CounterAhead(Put(s, id, rec), prefix)
  {
  }

  /** An id whose first letter differs from the prefix is never handed out. */
  lemma ForeignIdNeverFresh(prefix: string, id: string, n: nat)
    requires prefix != [] && id != [] && id[0] != prefix[0]
    ensures FreshId(prefix, n) != id
  {
    assert FreshId(prefix, n)[0] == prefix[0];
  }
}
