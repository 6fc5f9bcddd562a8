/**
 * Ordered sets of database identifiers.
 *
 * Tags, custom fields and the four permission lists of a document are
 * many-to-many relations whose order is the order of insertion. They are
 * modelled as duplicate-free sequences: `Union` adds what is missing in
 * first-seen order, `Subtract` drops the listed members and keeps the order
 * of the rest.
 */
module OrderedIds {

  type Id = nat

  /** No identifier occurs twice. */
  predicate NoDup(s: seq<Id>) {
    forall i, j :: 0 <= i < j < |s| ==> s[i] != s[j]
  }

  /** `s` with `x` appended unless it is already there (the ORM's `.add`). */
  function AddIfAbsent(s: seq<Id>, x: Id): (r: seq<Id>)
    ensures x in r
    ensures forall y :: y in r <==> y in s || y == x
    ensures x in s ==> r == s
    ensures x !in s ==> r == s + [x]
  {
    if x in s then s else s + [x]
  }

  /** `a` extended by the members of `b` it lacks, in the order they are first seen in `b`. */
  function Union(a: seq<Id>, b: seq<Id>): (r: seq<Id>)
    ensures |a| <= |r| && r[..|a|] == a
    decreases |b|
  {
    if b == [] then a else AddIfAbsent(Union(a, b[..|b| - 1]), b[|b| - 1])
  }

  /** The members of `a` that are not in `drop`, in their original order. */
  function Subtract(a: seq<Id>, drop: set<Id>): (r: seq<Id>)
    ensures |r| <= |a|
    decreases |a|
  {
    if a == [] then []
    else Subtract(a[..|a| - 1], drop) + (if a[|a| - 1] in drop then [] else [a[|a| - 1]])
  }

  /** The union holds exactly the members of either side. */
  lemma {:induction false} UnionMembers(a: seq<Id>, b: seq<Id>)
    ensures forall x :: x in Union(a, b) <==> x in a || x in b
    decreases |b|
  {
    if b != [] {
      UnionMembers(a, b[..|b| - 1]);
      assert b == b[..|b| - 1] + [b[|b| - 1]];
    }
  }

  /** The difference holds exactly the members of `a` that are not dropped. */
  lemma {:induction false} SubtractMembers(a: seq<Id>, drop: set<Id>)
    ensures forall x :: x in Subtract(a, drop) <==> x in a && x !in drop
    decreases |a|
  {
    if a != [] {
      SubtractMembers(a[..|a| - 1], drop);
      assert a == a[..|a| - 1] + [a[|a| - 1]];
    }
  }

  lemma {:induction false} UnionNoDup(a: seq<Id>, b: seq<Id>)
    requires NoDup(a)
    ensures NoDup(Union(a, b))
    decreases |b|
  {
    if b != [] {
      UnionNoDup(a, b[..|b| - 1]);
    }
  }

  lemma {:induction false} SubtractNoDup(a: seq<Id>, drop: set<Id>)
    requires NoDup(a)
    ensures NoDup(Subtract(a, drop))
    decreases |a|
  {
    if a != [] {
      var init := a[..|a| - 1];
      assert NoDup(init);
      SubtractNoDup(init, drop);
      SubtractMembers(init, drop);
      assert a[|a| - 1] !in init;
    }
  }

  /** Adding `b` then `c` is adding `b + c`: the union of several assignments is one union. */
  lemma {:induction false} UnionAppend(a: seq<Id>, b: seq<Id>, c: seq<Id>)
    ensures Union(Union(a, b), c) == Union(a, b + c)
    decreases |c|
  {
    if c == [] {
      assert b + c == b;
    } else {
      var c' := c[..|c| - 1];
      UnionAppend(a, b, c');
      assert (b + c)[..|b + c| - 1] == b + c';
      assert (b + c)[|b + c| - 1] == c[|c| - 1];
    }
  }

  /** Adding members that are already present changes nothing. */
  lemma {:induction false} UnionPresent(a: seq<Id>, b: seq<Id>)
    requires forall x :: x in b ==> x in a
    ensures Union(a, b) == a
    decreases |b|
  {
    if b != [] {
      UnionPresent(a, b[..|b| - 1]);
      assert b[|b| - 1] in b;
    }
  }

  /** Assigning the same members twice yields the collection of assigning them once. */
  lemma UnionIdempotent(a: seq<Id>, b: seq<Id>)
    ensures Union(Union(a, b), b) == Union(a, b)
  {
    UnionMembers(a, b);
    UnionPresent(Union(a, b), b);
  }

  /** Members new to `a` and pairwise distinct are appended exactly in their given order. */
  lemma {:induction false} UnionFresh(a: seq<Id>, b: seq<Id>)
    requires NoDup(b)
    requires forall x :: x in b ==> x !in a
    ensures Union(a, b) == a + b
    decreases |b|
  {
    if b != [] {
      var b' := b[..|b| - 1];
      assert NoDup(b');
      UnionFresh(a, b');
      assert b[|b| - 1] in b;
      assert b[|b| - 1] !in b';
      assert b' + [b[|b| - 1]] == b;
    }
  }

  /** Subtracting nothing that is present is the identity. */
  lemma {:induction false} SubtractAbsent(a: seq<Id>, drop: set<Id>)
    requires forall x :: x in a ==> x !in drop
    ensures Subtract(a, drop) == a
    decreases |a|
  {
    if a != [] {
      var init := a[..|a| - 1];
      SubtractAbsent(init, drop);
      assert a[|a| - 1] in a;
      assert init + [a[|a| - 1]] == a;
    }
  }

  /** Subtracting from a sequence with one more member at the end. */
  lemma SubtractSnoc(a: seq<Id>, x: Id, drop: set<Id>)
    ensures Subtract(a + [x], drop) == Subtract(a, drop) + (if x in drop then [] else [x])
  {
    assert (a + [x])[..|a + [x]| - 1] == a;
  }

  /** Subtraction distributes over concatenation, so it keeps the relative order. */
  lemma {:induction false} SubtractAppend(a: seq<Id>, b: seq<Id>, drop: set<Id>)
    ensures Subtract(a + b, drop) == Subtract(a, drop) + Subtract(b, drop)
    decreases |b|
  {
    if b == [] {
      assert a + b == a;
    } else {
      var b', x := b[..|b| - 1], b[|b| - 1];
      assert b == b' + [x];
      assert a + b == (a + b') + [x];
      SubtractAppend(a, b', drop);
      SubtractSnoc(a + b', x, drop);
      SubtractSnoc(b', x, drop);
    }
  }

  /** Two subtractions in a row subtract the union of what they drop. */
  lemma {:induction false} SubtractTwice(a: seq<Id>, first: set<Id>, second: set<Id>)
    ensures Subtract(Subtract(a, first), second) == Subtract(a, first + second)
    decreases |a|
  {
    if a != [] {
      var a', x := a[..|a| - 1], a[|a| - 1];
      SubtractTwice(a', first, second);
      var kept := if x in first then [] else [x];
      assert Subtract(a, first) == Subtract(a', first) + kept;
      SubtractAppend(Subtract(a', first), kept, second);
      if x !in first {
        SubtractSnoc([], x, second);
      }
    }
  }

  /** The loop behind `.add` of every member of a list, one member at a time. */
  method AppendMissing(a: seq<Id>, b: seq<Id>) returns (r: seq<Id>)
    ensures r == Union(a, b)
  {
    r := a;
    for i := 0 to |b|
      invariant r == Union(a, b[..i])
    {
      assert b[..i + 1][..i] == b[..i];
      if b[i] !in r {
        r := r + [b[i]];
      }
    }
    assert b[..|b|] == b;
  }

  /** The loop behind `.remove` of every listed member that is present. */
  method RemoveListed(a: seq<Id>, drop: set<Id>) returns (r: seq<Id>)
    ensures r == Subtract(a, drop)
  {
    r := [];
    for i := 0 to |a|
      invariant r == Subtract(a[..i], drop)
    {
      assert a[..i + 1][..i] == a[..i];
      if a[i] !in drop {
        r := r + [a[i]];
      }
    }
    assert a[..|a|] == a;
  }
}
