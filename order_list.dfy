/** The ordered id lists that the task, group and phase reducers keep beside
    their record maps (`tasksOrder`, `groupsOrder`, `phasesOrder`), and the
    list operations the reducers apply to them: `indexOf`, removal by
    `filter`, moving an entry one place up or down, and `splice`. */
module OrderList {

  ghost predicate NoDup<T>(s: seq<T>) {
    forall i, j :: 0 <= i < j < |s| ==> s[i] != s[j]
  }

  /** `s` lists exactly the elements of `keys`, each once. */
  ghost predicate Lists<T(!new)>(s: seq<T>, keys: set<T>) {
    NoDup(s) && forall x :: x in s <==> x in keys
  }

  /** Two orders that list the same keys are permutations of each other. */
  lemma ListsSameMultiset<T(!new)>(a: seq<T>, b: seq<T>, keys: set<T>)
    requires Lists(a, keys) && Lists(b, keys)
    ensures multiset(a) == multiset(b)
  {
    forall x ensures multiset(a)[x] == multiset(b)[x] {
      NoDupCount(a, x);
      NoDupCount(b, x);
    }
  }

  /** A listing has as many entries as there are keys. */
  lemma {:induction false} ListsCardinality<T(!new)>(s: seq<T>, keys: set<T>)
    requires Lists(s, keys)
    ensures |s| == |keys|
  {
    if s == [] {
      assert forall y :: y !in keys;
      assert keys == {};
    } else {
      var p := s[..|s| - 1];
      var x := s[|s| - 1];
      assert s == p + [x];
      assert x !in p;
      forall y ensures y in p <==> y in keys - {x} {
        assert y in s <==> y in p || y == x;
      }
      ListsCardinality(p, keys - {x});
    }
  }

  /** Taking the last element of `a` out of `a` and one copy of it out of a
      permutation `b` of `a` leaves two permutations. */
  lemma RemoveMatching<T>(a: seq<T>, b: seq<T>, i: nat)
    requires multiset(a) == multiset(b) && a != [] && i < |b| && b[i] == a[|a| - 1]
    ensures b == b[..i] + [b[i]] + b[i + 1..]
    ensures multiset(b[..i] + b[i + 1..]) == multiset(a[..|a| - 1])
  {
    var left, right := b[..i], b[i + 1..];
    assert b == left + [b[i]] + right;
    assert multiset(b) == multiset(left) + multiset{b[i]} + multiset(right);
    var front := a[..|a| - 1];
    assert a == front + [a[|a| - 1]];
    assert multiset(a) == multiset(front) + multiset{b[i]};
    assert multiset(left + right) == multiset(left) + multiset(right);
    forall y ensures multiset(left + right)[y] == multiset(front)[y] {
      assert multiset(b)[y] == multiset(a)[y];
    }
  }

  lemma {:induction false} NoDupCount<T>(s: seq<T>, x: T)
    requires NoDup(s)
    ensures multiset(s)[x] == if x in s then 1 else 0
  {
    if s != [] {
      var p := s[..|s| - 1];
      assert s == p + [s[|s| - 1]];
      assert NoDup(p);
      NoDupCount(p, x);
      assert s[|s| - 1] !in p;
    }
  }

  /** `s.indexOf(x)`: the first position of `x`, or -1. */
  function IndexOf<T(==)>(s: seq<T>, x: T): (i: int)
    ensures -1 <= i < |s|
    ensures i == -1 <==> x !in s
    ensures 0 <= i ==> s[i] == x && x !in s[..i]
  {
    if s == [] then -1
    else if s[0] == x then 0
    else
      var j := IndexOf(s[1..], x);
      if j == -1 then -1
      else
        assert s[..j + 1] == [s[0]] + s[1..][..j];
        j + 1
  }

  /** In a list without duplicates the position of an element is unique. */
  lemma IndexOfUnique<T>(s: seq<T>, k: int)
    requires NoDup(s) && 0 <= k < |s|
    ensures IndexOf(s, s[k]) == k
  {
    var i := IndexOf(s, s[k]);
    assert s[i] == s[k];
  }

  /** `s.filter(y => y !== x)`. */
  function Without<T(==,!new)>(s: seq<T>, x: T): (r: seq<T>)
    ensures forall y :: y in r <==> y in s && y != x
    ensures |r| <= |s|
    ensures x !in s ==> r == s
    ensures NoDup(s) ==> NoDup(r)
  {
    if s == [] then []
    else
      var rest := Without(s[1..], x);
      if s[0] == x then rest
      else
        assert NoDup(s) ==> s[0] !in s[1..];
        [s[0]] + rest
  }

  /** The entries of `r` occur in `s` in the same relative order. */
  predicate InOrderOf<T(==)>(r: seq<T>, s: seq<T>) {
    forall i, j :: 0 <= i < j < |r| ==> IndexOf(s, r[i]) < IndexOf(s, r[j])
  }

  /** The filter works entry by entry: filtering a concatenation filters
      each part. */
  lemma {:induction false} WithoutAppend<T(!new)>(a: seq<T>, b: seq<T>, x: T)
    ensures Without(a + b, x) == Without(a, x) + Without(b, x)
  {
    if a == [] {
      assert a + b == b;
    } else {
      assert (a + b)[0] == a[0];
      assert (a + b)[1..] == a[1..] + b;
      WithoutAppend(a[1..], b, x);
    }
  }

  /** Past the head, positions count from the tail plus one. */
  lemma IndexOfTail<T>(s: seq<T>, y: T)
    requires s != [] && y in s[1..] && y != s[0]
    ensures IndexOf(s, y) == IndexOf(s[1..], y) + 1
  {
  }

  /** The ids that stay keep their relative order. */
  lemma {:induction false} WithoutKeepsOrder<T(!new)>(s: seq<T>, x: T)
    requires NoDup(s)
    ensures InOrderOf(Without(s, x), s)
  {
    if s != [] {
      var tail := s[1..];
      var rest := Without(tail, x);
      assert NoDup(tail);
      WithoutKeepsOrder(tail, x);
      if s[0] == x {
        WithoutDropsHead(s, x, rest);
      } else {
        WithoutKeepsHead(s, x, rest);
      }
    }
  }

  lemma WithoutDropsHead<T(!new)>(s: seq<T>, x: T, rest: seq<T>)
    requires s != [] && s[0] == x && rest == Without(s[1..], x) && InOrderOf(rest, s[1..])
    ensures InOrderOf(Without(s, x), s)
  {
    assert Without(s, x) == rest;
    forall i, j | 0 <= i < j < |rest| ensures IndexOf(s, rest[i]) < IndexOf(s, rest[j]) {
      assert rest[i] in rest && rest[j] in rest;
      IndexOfTail(s, rest[i]);
      IndexOfTail(s, rest[j]);
    }
  }

  lemma WithoutKeepsHead<T(!new)>(s: seq<T>, x: T, rest: seq<T>)
    requires NoDup(s) && s != [] && s[0] != x && rest == Without(s[1..], x) && InOrderOf(rest, s[1..])
    ensures InOrderOf(Without(s, x), s)
  {
    var r := Without(s, x);
    assert r == [s[0]] + rest;
    forall i, j | 0 <= i < j < |r| ensures IndexOf(s, r[i]) < IndexOf(s, r[j]) {
      assert r[j] == rest[j - 1] && r[j] in rest;
      assert r[j] != s[0] by {
        var k :| 0 <= k < |s[1..]| && s[1..][k] == r[j];
        assert s[k + 1] == r[j];
      }
      IndexOfTail(s, r[j]);
      if i > 0 {
        assert r[i] == rest[i - 1] && r[i] in rest;
        assert r[i] != s[0] by {
          var k :| 0 <= k < |s[1..]| && s[1..][k] == r[i];
          assert s[k + 1] == r[i];
        }
        IndexOfTail(s, r[i]);
      }
    }
  }

  /** `s` with the entries at `i` and `i + 1` exchanged. */
  function Swapped<T>(s: seq<T>, i: nat): (r: seq<T>)
    requires i + 1 < |s|
    ensures |r| == |s| && r[i] == s[i + 1] && r[i + 1] == s[i]
    ensures forall j :: 0 <= j < |s| && j != i && j != i + 1 ==> r[j] == s[j]
    ensures multiset(r) == multiset(s)
    ensures NoDup(s) ==> NoDup(r)
  {
    SwappedPermutes(s, i);
    s[..i] + [s[i + 1], s[i]] + s[i + 2..]
  }

  lemma SwappedPermutes<T>(s: seq<T>, i: nat)
    requires i + 1 < |s|
    ensures multiset(s[..i] + [s[i + 1], s[i]] + s[i + 2..]) == multiset(s)
    ensures NoDup(s) ==> NoDup(s[..i] + [s[i + 1], s[i]] + s[i + 2..])
  {
    var r := s[..i] + [s[i + 1], s[i]] + s[i + 2..];
    assert s == s[..i] + [s[i], s[i + 1]] + s[i + 2..];
    assert multiset([s[i + 1], s[i]]) == multiset([s[i], s[i + 1]]);
    if NoDup(s) {
      forall p, q | 0 <= p < q < |r| ensures r[p] != r[q] {
        var sp := if p == i then i + 1 else if p == i + 1 then i else p;
        var sq := if q == i then i + 1 else if q == i + 1 then i else q;
        assert r[p] == s[sp] && r[q] == s[sq] && sp != sq;
      }
    }
  }

  /** MOVE_*_UP: exchange `x` with the entry before it; nothing changes when
      `x` is first or absent. */
  function MovedUp<T(==)>(s: seq<T>, x: T): (r: seq<T>)
    ensures |r| == |s| && multiset(r) == multiset(s)
    ensures NoDup(s) ==> NoDup(r)
    ensures IndexOf(s, x) < 1 ==> r == s
    ensures IndexOf(s, x) >= 1 ==>
              var i := IndexOf(s, x);
              r[i - 1] == x && r[i] == s[i - 1]
              && forall j :: 0 <= j < |s| && j != i - 1 && j != i ==> r[j] == s[j]
  {
    var i := IndexOf(s, x);
    if i < 1 then s else Swapped(s, i - 1)
  }

  /** MOVE_*_DOWN: exchange `x` with the entry after it; nothing changes
      when `x` is last or absent. */
  function MovedDown<T(==)>(s: seq<T>, x: T): (r: seq<T>)
    ensures |r| == |s| && multiset(r) == multiset(s)
    ensures NoDup(s) ==> NoDup(r)
    ensures IndexOf(s, x) == -1 || IndexOf(s, x) == |s| - 1 ==> r == s
    ensures 0 <= IndexOf(s, x) < |s| - 1 ==>
              var i := IndexOf(s, x);
              r[i + 1] == x && r[i] == s[i + 1]
              && forall j :: 0 <= j < |s| && j != i && j != i + 1 ==> r[j] == s[j]
  {
    var i := IndexOf(s, x);
    if i == -1 || i == |s| - 1 then s else Swapped(s, i)
  }

  /** `s.splice(k, 0, x)` on a copy of `s`. */
  function InsertAt<T(==)>(s: seq<T>, k: nat, x: T): (r: seq<T>)
    requires k <= |s|
    ensures |r| == |s| + 1 && r[k] == x
    ensures r[..k] == s[..k] && r[k + 1..] == s[k..]
    ensures multiset(r) == multiset(s) + multiset{x}
  {
    assert s == s[..k] + s[k..];
    s[..k] + [x] + s[k..]
  }

  /** An order that lists `keys` lists `keys + {x}` once a fresh `x` is
      inserted anywhere. */
  lemma InsertKeepsLists<T(!new)>(s: seq<T>, keys: set<T>, k: nat, x: T)
    requires Lists(s, keys) && x !in keys && k <= |s|
    ensures Lists(InsertAt(s, k, x), keys + {x})
  {
    var r := InsertAt(s, k, x);
    forall y ensures y in r <==> y in keys + {x} {
      assert y in r <==> y in multiset(r);
    }
    InsertNoDup(s, k, x);
  }

  lemma InsertNoDup<T>(s: seq<T>, k: nat, x: T)
    requires NoDup(s) && x !in s && k <= |s|
    ensures NoDup(InsertAt(s, k, x))
  {
    var r := InsertAt(s, k, x);
    InsertAtIndex(s, k, x);
    forall i, j | 0 <= i < j < |r| ensures r[i] != r[j] {
      if j == k {
        assert r[i] == s[i];
      } else if i == k {
        assert r[j] == s[j - 1];
      } else {
        var i', j' := if i < k then i else i - 1, if j < k then j else j - 1;
        assert r[i] == s[i'] && r[j] == s[j'] && i' < j';
      }
    }
  }

  lemma InsertAtIndex<T>(s: seq<T>, k: nat, x: T)
    requires k <= |s|
    ensures forall i :: 0 <= i < k ==> InsertAt(s, k, x)[i] == s[i]
    ensures forall i :: k < i <= |s| ==> InsertAt(s, k, x)[i] == s[i - 1]
  {
    var r := InsertAt(s, k, x);
    assert r == s[..k] + [x] + s[k..];
  }

  /** The copy-and-swap of MOVE_*_UP, on an array. */
  method MoveUp(order: seq<string>, id: string) returns (newOrder: seq<string>)
    ensures newOrder == MovedUp(order, id)
  {
    var index := IndexOf(order, id);
    if index < 1 {
      return order;
    }
    var a := new string[|order|](j requires 0 <= j < |order| => order[j]);
    a[index - 1], a[index] := a[index], a[index - 1];
    newOrder := a[..];
  }

  /** The copy-and-swap of MOVE_*_DOWN, on an array. */
  method MoveDown(order: seq<string>, id: string) returns (newOrder: seq<string>)
    ensures newOrder == MovedDown(order, id)
  {
    var index := IndexOf(order, id);
    if index == -1 || index == |order| - 1 {
      return order;
    }
    var a := new string[|order|](j requires 0 <= j < |order| => order[j]);
    a[index], a[index + 1] := a[index + 1], a[index];
    newOrder := a[..];
  }

  /** `newOrder.splice(k, 0, x)` on a copy of `order`: the entries from `k`
      on shift one slot to the right. */
  method Splice(order: seq<string>, k: nat, x: string) returns (newOrder: seq<string>)
    requires k <= |order|
    ensures newOrder == InsertAt(order, k, x)
  {
    var a := new string[|order| + 1](j requires 0 <= j <= |order| => if j < |order| then order[j] else x);
    var i := |order|;
    while i > k
      invariant k <= i <= |order|
      invariant forall j :: 0 <= j < i ==> a[j] == order[j]
      invariant forall j :: i < j <= |order| ==> a[j] == order[j - 1]
    {
      a[i] := a[i - 1];
      i := i - 1;
    }
    a[k] := x;
    newOrder := a[..];
  }
}
