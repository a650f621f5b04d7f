/** Generic list edits used by the store and the builder panels:
    `Array.prototype.filter` by index and by value, and the
    splice-out/splice-in move behind field reordering. */
module ListOps {

  /** `s.filter((_, j) => j !== i)`: index `i` dropped, or `s` unchanged
      when `i` is not an index of `s`. */
  function RemoveAt<T>(s: seq<T>, i: int): (r: seq<T>)
    ensures 0 <= i < |s| ==> |r| == |s| - 1
    ensures !(0 <= i < |s|) ==> r == s
  {
    if 0 <= i < |s| then s[..i] + s[i + 1..] else s
  }

  lemma RemoveAtIndex<T>(s: seq<T>, i: int, k: int)
    requires 0 <= i < |s| && 0 <= k < |s| - 1
    ensures RemoveAt(s, i)[k] == if k < i then s[k] else s[k + 1]
  {
  }

  /** `s.filter(v => v !== x)`. */
  function RemoveAll<T(==)>(s: seq<T>, x: T): (r: seq<T>)
    ensures x !in r
    ensures forall i :: 0 <= i < |r| ==> r[i] in s
    ensures forall i :: 0 <= i < |s| && s[i] != x ==> s[i] in r
    ensures |r| <= |s|
  {
    if s == [] then []
    else if s[0] == x then RemoveAll(s[1..], x)
    else [s[0]] + RemoveAll(s[1..], x)
  }

  /** Filtering distributes over concatenation: the survivors keep their
      relative order. */
  lemma {:induction false} RemoveAllAppend<T>(a: seq<T>, b: seq<T>, x: T)
    ensures RemoveAll(a + b, x) == RemoveAll(a, x) + RemoveAll(b, x)
  {
    if a == [] {
      assert a + b == b;
    } else {
      assert (a + b)[1..] == a[1..] + b;
      RemoveAllAppend(a[1..], b, x);
    }
  }

  /** A list without `x` is left as it is. */
  lemma {:induction false} RemoveAllAbsent<T>(s: seq<T>, x: T)
    requires x !in s
    ensures RemoveAll(s, x) == s
  {
    if s != [] {
      RemoveAllAbsent(s[1..], x);
    }
  }

  /** Splice the element at `from` out and back in at `to`
      (`splice(from, 1)` then `splice(to, 0, item)`). */
  function Moved<T>(s: seq<T>, from: nat, to: nat): (r: seq<T>)
    requires from < |s| && to < |s|
  {
    var rest := RemoveAt(s, from);
    rest[..to] + [s[from]] + rest[to..]
  }

  /** Where each element of a moved list comes from: the moved element sits
      at `to`, the ones it jumped over shift by one toward `from`, and the
      rest stay put. */
  lemma MovedIndex<T>(s: seq<T>, from: nat, to: nat, k: nat)
    requires from < |s| && to < |s| && k < |s|
    ensures |Moved(s, from, to)| == |s|
    ensures Moved(s, from, to)[k] ==
      if k == to then s[from]
      else if from <= k < to then s[k + 1]
      else if to < k <= from then s[k - 1]
      else s[k]
  {
    var rest := RemoveAt(s, from);
    if k < to {
      RemoveAtIndex(s, from, k);
    } else if k > to {
      RemoveAtIndex(s, from, k - 1);
    }
  }

  /** A move is a permutation that puts the moved element at `to`. */
  lemma MovedPermutes<T>(s: seq<T>, from: nat, to: nat)
    requires from < |s| && to < |s|
    ensures |Moved(s, from, to)| == |s|
    ensures Moved(s, from, to)[to] == s[from]
    ensures multiset(Moved(s, from, to)) == multiset(s)
  {
    var rest := RemoveAt(s, from);
    assert s == s[..from] + [s[from]] + s[from + 1..];
    assert rest[..to] + rest[to..] == rest;
    calc {
      multiset(Moved(s, from, to));
      multiset(rest[..to]) + multiset([s[from]]) + multiset(rest[to..]);
      multiset(rest) + multiset([s[from]]);
      multiset(s[..from]) + multiset(s[from + 1..]) + multiset([s[from]]);
      multiset(s);
    }
  }

  /** The other elements keep their relative order: taking the moved element
      back out of its new place gives the list without it. */
  lemma MovedKeepsOthersInOrder<T>(s: seq<T>, from: nat, to: nat)
    requires from < |s| && to < |s|
    ensures RemoveAt(Moved(s, from, to), to) == RemoveAt(s, from)
  {
    var rest := RemoveAt(s, from);
    var m := Moved(s, from, to);
    assert m[..to] == rest[..to];
    assert m[to + 1..] == rest[to..];
    assert rest == rest[..to] + rest[to..];
  }

  /** Shifts `a[from + 1..to + 1]` one place down, over `a[from]`. */
  method ShiftDown<T>(a: array<T>, from: nat, to: nat)
    requires from <= to < a.Length
    modifies a
    ensures forall j :: 0 <= j < from ==> a[j] == old(a[j])
    ensures forall j :: from <= j < to ==> a[j] == old(a[j + 1])
    ensures forall j :: to <= j < a.Length ==> a[j] == old(a[j])
  {
    var k := from;
    while k < to
      invariant from <= k <= to
      invariant forall j :: 0 <= j < from ==> a[j] == old(a[j])
      invariant forall j :: from <= j < k ==> a[j] == old(a[j + 1])
      invariant forall j :: k <= j < a.Length ==> a[j] == old(a[j])
    {
      a[k] := a[k + 1];
      k := k + 1;
    }
  }

  /** Shifts `a[to..from]` one place up, over `a[from]`. */
  method ShiftUp<T>(a: array<T>, from: nat, to: nat)
    requires to <= from < a.Length
    modifies a
    ensures forall j :: 0 <= j <= to ==> a[j] == old(a[j])
    ensures forall j :: to < j <= from ==> a[j] == old(a[j - 1])
    ensures forall j :: from < j < a.Length ==> a[j] == old(a[j])
  {
    var k := from;
    while k > to
      invariant to <= k <= from
      invariant forall j :: 0 <= j <= k ==> a[j] == old(a[j])
      invariant forall j :: k < j <= from ==> a[j] == old(a[j - 1])
      invariant forall j :: from < j < a.Length ==> a[j] == old(a[j])
    {
      a[k] := a[k - 1];
      k := k - 1;
    }
  }

  /** The splice move of `reorderFields`, done as the engine does it: copy
      the list into a fresh array, shift the elements between the two
      positions by one, and drop the moved element into its slot. */
  method SpliceMove<T>(s: seq<T>, from: nat, to: nat) returns (r: seq<T>)
    requires from < |s| && to < |s|
    ensures r == Moved(s, from, to)
  {
    var a := new T[|s|](i requires 0 <= i < |s| => s[i]);
    assert a[..] == s;
    var item := a[from];
    if from < to {
      ShiftDown(a, from, to);
    } else {
      ShiftUp(a, from, to);
    }
    a[to] := item;
    r := a[..];
    forall j | 0 <= j < |s|
      ensures r[j] == Moved(s, from, to)[j]
    {
      MovedIndex(s, from, to, j);
    }
    MovedIndex(s, from, to, 0);
  }
}
