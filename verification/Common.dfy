/** Small shared definitions: options, bytes, and cyclic numbering. */
module Common {
  datatype Option<+T> = None | Some(value: T)

  type byte = b: int | 0 <= b < 256

  function Flatten<T>(ss: seq<seq<T>>): seq<T> {
    if ss == [] then [] else ss[0] + Flatten(ss[1..])
  }

  lemma Associate<T>(a: seq<T>, b: seq<T>, c: seq<T>)
    ensures a + (b + c) == (a + b) + c
  {
  }

  lemma {:induction false} FlattenAppend<T>(xs: seq<seq<T>>, ys: seq<seq<T>>)
    ensures Flatten(xs + ys) == Flatten(xs) + Flatten(ys)
  {
    if xs == [] {
      assert xs + ys == ys;
    } else {
      FlattenAppend(xs[1..], ys);
      assert (xs + ys)[1..] == xs[1..] + ys;
      Associate(xs[0], Flatten(xs[1..]), Flatten(ys));
    }
  }

  lemma FlattenOne<T>(x: seq<T>)
    ensures Flatten([x]) == x
  {
    assert [x][1..] == [];
  }

  predicate Distinct<T(==)>(xs: seq<T>) {
    forall i, k :: 0 <= i < k < |xs| ==> xs[i] != xs[k]
  }

  lemma {:induction false} DistinctOnce<T>(xs: seq<T>, x: T)
    requires Distinct(xs) && x in xs
    ensures multiset(xs)[x] == 1
  {
    var rest := xs[1..];
    assert xs == [xs[0]] + rest;
    if xs[0] == x { assert x !in rest; } else { DistinctOnce(rest, x); }
  }

  /** The k-th thing put round a ring of n places, counting from 0; k may be negative. */
  function Slot(k: int, n: nat): (i: nat)
    requires n > 0
    ensures i < n
  {
    k % n
  }

  lemma {:induction false} MulSign(n: nat, d: int)
    requires n > 0 && d != 0
    ensures d > 0 ==> n * d >= n
    ensures d < 0 ==> n * d + n <= 0
    decreases if d < 0 then -d else d
  {
    if d > 1 {
      MulSign(n, d - 1);
      assert n * d == n * (d - 1) + n;
    } else if d < -1 {
      MulSign(n, d + 1);
      assert n * d == n * (d + 1) - n;
    }
  }

  lemma SlotUnique(k: int, n: nat, q: int, r: nat)
    requires n > 0 && r < n && k == n * q + r
    ensures Slot(k, n) == r
  {
    var q', r' := k / n, k % n;
    assert k == n * q' + r';
    assert n * (q - q') == n * q - n * q' == r' - r;
    if q != q' { MulSign(n, q - q'); }
  }

  /** Fewer than n places apart means different places. */
  lemma SlotInjective(j: int, k: int, n: nat)
    requires n > 0 && j < k < j + n
    ensures Slot(j, n) != Slot(k, n)
  {
    if Slot(j, n) == Slot(k, n) {
      var d := k / n - j / n;
      assert k - j == n * (k / n) - n * (j / n);
      assert n * d == n * (k / n) - n * (j / n);
      if d != 0 { MulSign(n, d); }
    }
  }

  lemma SlotPeriod(k: int, n: nat)
    requires n > 0
    ensures Slot(k + n, n) == Slot(k, n)
  {
    assert k == n * (k / n) + k % n;
    assert n * (k / n + 1) == n * (k / n) + n;
    SlotUnique(k + n, n, k / n + 1, k % n);
  }

  lemma SlotNext(k: int, n: nat)
    requires n > 0
    ensures Slot(k + 1, n) == (Slot(k, n) + 1) % n
  {
    var q, r := k / n, k % n;
    assert k == n * q + r;
    if r + 1 < n {
      SlotUnique(k + 1, n, q, r + 1);
      SlotUnique(r + 1, n, 0, r + 1);
    } else {
      assert n * (q + 1) == n * q + n;
      SlotUnique(k + 1, n, q + 1, 0);
      SlotUnique(r + 1, n, 1, 0);
    }
  }

  lemma SlotSmall(i: nat, n: nat)
    requires i < n
    ensures Slot(i, n) == i
  {
    SlotUnique(i, n, 0, i);
  }
}
