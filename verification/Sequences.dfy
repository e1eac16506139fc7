/** Options, and sequences with an element more or less. */
module Sequences {
  datatype Option<+T> = None | Some(value: T)

  // Facts about two indices are used where Pair names them
  predicate Pair(i: int, j: int) {
    true
  }

  ghost predicate NoDup<T>(q: seq<T>) {
    forall i, j {:trigger Pair(i, j)} :: Pair(i, j) && 0 <= i < j < |q| ==> q[i] != q[j]
  }

  lemma {:induction false} NoDupFrom<T>(q: seq<T>, k: nat)
    requires NoDup(q) && k < |q|
    ensures forall i :: 0 <= i < |q| && q[i] == q[k] ==> i == k
  {
    forall i | 0 <= i < |q| && i != k ensures q[i] != q[k] {
      assert Pair(i, k) && Pair(k, i);
    }
  }

  // r is q with x at index k
  ghost predicate InsertsAt<T>(q: seq<T>, x: T, k: nat, r: seq<T>) {
    && k <= |q| && |r| == |q| + 1 && r[k] == x
    && (forall j :: 0 <= j < k ==> r[j] == q[j])
    && (forall j :: k < j < |r| ==> r[j] == q[j - 1])
  }

  lemma {:induction false} Splice<T>(q: seq<T>, x: T, k: nat) returns (r: seq<T>)
    requires k <= |q|
    ensures InsertsAt(q, x, k, r)
  {
    r := q[..k] + [x] + q[k..];
  }

  // r is q without index k
  ghost predicate RemovesAt<T>(q: seq<T>, k: nat, r: seq<T>) {
    && k < |q| && |r| == |q| - 1
    && (forall j :: 0 <= j < k ==> r[j] == q[j])
    && (forall j :: k <= j < |r| ==> r[j] == q[j + 1])
  }

  lemma {:induction false} Cut<T>(q: seq<T>, k: nat) returns (r: seq<T>)
    requires k < |q|
    ensures RemovesAt(q, k, r)
  {
    r := q[..k] + q[k + 1..];
  }

  lemma {:induction false} InsertedRemoved<T>(q: seq<T>, x: T, k: nat, r: seq<T>)
    requires InsertsAt(q, x, k, r)
    ensures RemovesAt(r, k, q)
  {
  }

  lemma {:induction false} NoDupRemoved<T>(q: seq<T>, k: nat, r: seq<T>)
    requires NoDup(q) && RemovesAt(q, k, r)
    ensures NoDup(r) && q[k] !in r
    ensures forall x :: x in q && x != q[k] ==> x in r
  {
    NoDupFrom(q, k);
    forall i, j | Pair(i, j) && 0 <= i < j < |r| ensures r[i] != r[j] {
      assert Pair(if i < k then i else i + 1, if j < k then j else j + 1);
    }
    forall x | x in q && x != q[k] ensures x in r {
      var i :| 0 <= i < |q| && q[i] == x;
      assert r[if i < k then i else i - 1] == x;
    }
  }

  lemma {:induction false} NoDupInserted<T>(q: seq<T>, t: T, k: nat, r: seq<T>)
    requires NoDup(q) && t !in q && InsertsAt(q, t, k, r)
    ensures NoDup(r)
  {
    forall i, j | Pair(i, j) && 0 <= i < j < |r| ensures r[i] != r[j] {
      assert i != k && j != k ==> Pair(if i < k then i else i - 1, if j < k then j else j - 1);
    }
  }

  lemma {:induction false} NoDupAppended<T>(q: seq<T>, x: T)
    requires NoDup(q) && x !in q
    ensures NoDup(q + [x])
  {
    forall i, j | Pair(i, j) && 0 <= i < j < |q + [x]| ensures (q + [x])[i] != (q + [x])[j] {
      assert j < |q| ==> Pair(i, j);
    }
  }

  // The first place of x in q, or the length of q
  function Index<T(==)>(q: seq<T>, x: T): (k: nat)
    ensures k <= |q| && (k < |q| ==> q[k] == x) && (x in q <==> k < |q|)
    ensures forall j :: 0 <= j < k ==> q[j] != x
  {
    if q == [] || q[0] == x then 0 else 1 + Index(q[1..], x)
  }

  // q without index i
  function Without<T>(q: seq<T>, i: nat): (r: seq<T>)
    requires i < |q|
    ensures |r| == |q| - 1
  {
    q[..i] + q[i + 1..]
  }

  lemma {:induction false} WithoutRemoves<T>(q: seq<T>, i: nat)
    requires i < |q|
    ensures RemovesAt(q, i, Without(q, i))
  {
  }

  lemma {:induction false} IndexAt<T>(q: seq<T>, k: nat)
    requires NoDup(q) && k < |q|
    ensures Index(q, q[k]) == k
  {
    NoDupFrom(q, k);
  }
}
