/** Ordered sets of floors, represented as strictly ascending sequences: the
    operations the scheduler needs from its sorted floor sets (insertion,
    removal, the strict and non-strict neighbour queries, the split at a
    floor, union and the descending view). */
module OrderedFloors {

  datatype Option<T> = None | Some(value: T)

  /** Strictly ascending, hence free of duplicates. */
  predicate Ascending(s: seq<int>) {
    forall i, j :: 0 <= i < j < |s| ==> s[i] < s[j]
  }

  predicate Descending(s: seq<int>) {
    forall i, j :: 0 <= i < j < |s| ==> s[i] > s[j]
  }

  function Elems(s: seq<int>): set<int> {
    set x | x in s
  }

  /** The first element of an ascending sequence is its least. */
  lemma HeadIsLeast(s: seq<int>)
    requires Ascending(s) && s != []
    ensures forall y :: y in Elems(s) ==> s[0] <= y
  {
    forall y | y in Elems(s) ensures s[0] <= y {
      var k :| 0 <= k < |s| && s[k] == y;
      assert k == 0 || s[0] < s[k];
    }
  }

  /** An ascending sequence is determined by its elements. */
  lemma {:induction false} AscendingUnique(a: seq<int>, b: seq<int>)
    requires Ascending(a) && Ascending(b) && Elems(a) == Elems(b)
    ensures a == b
  {
    if a != [] {
      assert a[0] in Elems(a);
      assert |b| > 0;
      assert b[0] in Elems(b);
      HeadIsLeast(a);
      HeadIsLeast(b);
      assert a[0] == b[0];
      AscendingTail(a);
      AscendingTail(b);
      assert a == [a[0]] + a[1..] && b == [b[0]] + b[1..];
      assert Elems(a[1..]) == Elems(a) - {a[0]};
      assert Elems(b[1..]) == Elems(b) - {b[0]};
      AscendingUnique(a[1..], b[1..]);
    } else {
      ElemsEmpty(b);
    }
  }

  lemma ElemsEmpty(s: seq<int>)
    ensures Elems(s) == {} <==> s == []
  {
    if s != [] {
      assert s[0] in Elems(s);
    }
  }

  lemma ElemsCons(h: int, t: seq<int>)
    ensures Elems([h] + t) == {h} + Elems(t)
  {
  }

  /** Prepending an element below every element keeps a sequence ascending. */
  lemma AscendingCons(h: int, t: seq<int>)
    requires Ascending(t)
    requires forall y :: y in Elems(t) ==> h < y
    ensures Ascending([h] + t)
  {
    var s := [h] + t;
    forall i, j | 0 <= i < j < |s| ensures s[i] < s[j] {
      if i > 0 {
        assert s[i] == t[i - 1] && s[j] == t[j - 1];
      } else {
        assert s[j] == t[j - 1] && s[j] in Elems(t);
      }
    }
  }

  /** A non-empty sequence is its head followed by its tail. */
  lemma ElemsSplit(s: seq<int>)
    requires s != []
    ensures s == [s[0]] + s[1..]
    ensures Elems(s) == {s[0]} + Elems(s[1..])
  {
    assert s == [s[0]] + s[1..];
    ElemsCons(s[0], s[1..]);
  }

  /** Prepending an element below every element: still ascending, one
      element more. */
  lemma Prepend(h: int, t: seq<int>)
    requires Ascending(t)
    requires forall y :: y in Elems(t) ==> h < y
    ensures Ascending([h] + t)
    ensures Elems([h] + t) == {h} + Elems(t)
  {
    AscendingCons(h, t);
    ElemsCons(h, t);
  }

  lemma AscendingTail(s: seq<int>)
    requires Ascending(s) && s != []
    ensures Ascending(s[1..])
    ensures forall y :: y in Elems(s[1..]) ==> s[0] < y
  {
    forall y | y in Elems(s[1..]) ensures s[0] < y {
      var k :| 0 <= k < |s[1..]| && s[1..][k] == y;
      assert s[k + 1] == y;
    }
  }

  /** TreeSet.add: the floor is present afterwards, nothing else is added,
      and the order is kept. */
  function Insert(s: seq<int>, x: int): (r: seq<int>)
    requires Ascending(s)
    ensures Ascending(r)
    ensures Elems(r) == Elems(s) + {x}
    ensures x in s ==> r == s
  {
    if s == [] then [x]
    else if x < s[0] then
      HeadIsLeast(s);
      Prepend(x, s);
      [x] + s
    else if x == s[0] then
      ElemsSplit(s);
      s
    else
      AscendingTail(s);
      ElemsSplit(s);
      var t := Insert(s[1..], x);
      Prepend(s[0], t);
      [s[0]] + t
  }

  /** TreeSet.remove: the floor is absent afterwards and every other floor
      is kept, in order. */
  function Remove(s: seq<int>, x: int): (r: seq<int>)
    requires Ascending(s)
    ensures Ascending(r)
    ensures Elems(r) == Elems(s) - {x}
    ensures x !in s ==> r == s
  {
    if s == [] then []
    else
      AscendingTail(s);
      ElemsSplit(s);
      var t := Remove(s[1..], x);
      if s[0] == x then t
      else
        Prepend(s[0], t);
        [s[0]] + t
  }

  /** The floors strictly below c (headSet(c, false)). */
  function Below(s: seq<int>, c: int): (r: seq<int>)
    requires Ascending(s)
    ensures Ascending(r)
    ensures Elems(r) == set x | x in s && x < c
  {
    if s == [] then []
    else
      AscendingTail(s);
      ElemsSplit(s);
      var t := Below(s[1..], c);
      if s[0] < c then
        Prepend(s[0], t);
        [s[0]] + t
      else t
  }

  /** The floors at or above c (tailSet(c, true)). */
  function AtOrAbove(s: seq<int>, c: int): (r: seq<int>)
    requires Ascending(s)
    ensures Ascending(r)
    ensures Elems(r) == set x | x in s && x >= c
  {
    if s == [] then []
    else
      AscendingTail(s);
      ElemsSplit(s);
      var t := AtOrAbove(s[1..], c);
      if s[0] >= c then
        Prepend(s[0], t);
        [s[0]] + t
      else t
  }

  /** addAll: the ordered merge of two ascending sequences. */
  function Union(a: seq<int>, b: seq<int>): (r: seq<int>)
    requires Ascending(a) && Ascending(b)
    ensures Ascending(r)
    ensures Elems(r) == Elems(a) + Elems(b)
    decreases |a| + |b|
  {
    if a == [] then b
    else if b == [] then a
    else if a[0] < b[0] then
      UnionHead(a, b);
      var t := Union(a[1..], b);
      Prepend(a[0], t);
      [a[0]] + t
    else if b[0] < a[0] then
      UnionHead(b, a);
      var t := Union(a, b[1..]);
      Prepend(b[0], t);
      [b[0]] + t
    else
      UnionHead(a, b);
      AscendingTail(b);
      ElemsSplit(b);
      var t := Union(a[1..], b[1..]);
      Prepend(a[0], t);
      [a[0]] + t
  }

  /** The facts the merge needs when a's head comes first. */
  lemma UnionHead(a: seq<int>, b: seq<int>)
    requires Ascending(a) && Ascending(b) && a != [] && b != [] && a[0] <= b[0]
    ensures Ascending(a[1..]) && Elems(a) == {a[0]} + Elems(a[1..])
    ensures forall y :: y in Elems(a[1..]) ==> a[0] < y
    ensures forall y :: y in Elems(b) ==> a[0] <= y
    ensures forall y :: y in Elems(b[1..]) ==> a[0] < y
  {
    AscendingTail(a);
    ElemsSplit(a);
    HeadIsLeast(b);
    AscendingTail(b);
  }

  /** ceiling(c): the least floor at or above c. */
  function Ceiling(s: seq<int>, c: int): (r: Option<int>)
    requires Ascending(s)
    ensures r.Some? ==> r.value in s && r.value >= c
                        && forall y :: y in s && y >= c ==> r.value <= y
    ensures r.None? ==> forall y :: y in s ==> y < c
  {
    if s == [] then None
    else if s[0] >= c then
      AscendingTail(s);
      assert s == [s[0]] + s[1..];
      Some(s[0])
    else
      assert s == [s[0]] + s[1..];
      AscendingTail(s);
      Ceiling(s[1..], c)
  }

  /** higher(c): the least floor strictly above c. */
  function Higher(s: seq<int>, c: int): (r: Option<int>)
    requires Ascending(s)
    ensures r.Some? ==> r.value in s && r.value > c
                        && forall y :: y in s && y > c ==> r.value <= y
    ensures r.None? ==> forall y :: y in s ==> y <= c
  {
    if s == [] then None
    else if s[0] > c then
      AscendingTail(s);
      assert s == [s[0]] + s[1..];
      Some(s[0])
    else
      assert s == [s[0]] + s[1..];
      AscendingTail(s);
      Higher(s[1..], c)
  }

  lemma AscendingInit(s: seq<int>, t: seq<int>, last: int)
    requires Ascending(s) && s == t + [last]
    ensures Ascending(t)
    ensures forall y :: y in Elems(t) ==> y < last
  {
    forall y | y in Elems(t) ensures y < last {
      var k :| 0 <= k < |t| && t[k] == y;
      assert s[k] == y && s[|t|] == last;
    }
    forall i, j | 0 <= i < j < |t| ensures t[i] < t[j] {
      assert s[i] == t[i] && s[j] == t[j];
    }
  }

  /** floor(c): the greatest floor at or below c. */
  function Floor(s: seq<int>, c: int): (r: Option<int>)
    requires Ascending(s)
    ensures r.Some? ==> r.value in s && r.value <= c
                        && forall y :: y in s && y <= c ==> y <= r.value
    ensures r.None? ==> forall y :: y in s ==> y > c
  {
    if s == [] then None
    else
      var n := |s| - 1;
      assert s == s[..n] + [s[n]];
      AscendingInit(s, s[..n], s[n]);
      if s[n] <= c then Some(s[n])
      else Floor(s[..n], c)
  }

  /** lower(c): the greatest floor strictly below c. */
  function Lower(s: seq<int>, c: int): (r: Option<int>)
    requires Ascending(s)
    ensures r.Some? ==> r.value in s && r.value < c
                        && forall y :: y in s && y < c ==> y <= r.value
    ensures r.None? ==> forall y :: y in s ==> y >= c
  {
    if s == [] then None
    else
      var n := |s| - 1;
      assert s == s[..n] + [s[n]];
      AscendingInit(s, s[..n], s[n]);
      if s[n] < c then Some(s[n])
      else Lower(s[..n], c)
  }

  /** descendingSet(): the same floors, greatest first. */
  function Reverse(s: seq<int>): (r: seq<int>)
    requires Ascending(s)
    ensures |r| == |s| && Descending(r)
    ensures Elems(r) == Elems(s)
    ensures forall i :: 0 <= i < |s| ==> r[i] == s[|s| - 1 - i]
  {
    var r := seq(|s|, i requires 0 <= i < |s| => s[|s| - 1 - i]);
    assert forall x :: x in s ==> x in r by {
      forall x | x in s ensures x in r {
        var k :| 0 <= k < |s| && s[k] == x;
        assert r[|s| - 1 - k] == x;
      }
    }
    r
  }
}
