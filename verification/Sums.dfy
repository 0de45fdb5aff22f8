/** Options, and sums of multisets and of naturals over the elements of a sequence. */
module Options {
  datatype Option<+T> = None | Some(value: T)
}

module Sums {

  /** The multiset sum of f(x) over the elements x of s. */
  ghost function Bag<A, X>(f: A -> multiset<X>, s: seq<A>): multiset<X> {
    BagUpTo(f, s, |s|)
  }

  ghost function BagUpTo<A, X>(f: A -> multiset<X>, s: seq<A>, n: nat): multiset<X>
    requires n <= |s|
  {
    if n == 0 then multiset{} else BagUpTo(f, s, n - 1) + f(s[n - 1])
  }

  lemma {:induction false} BagSame<A, X>(f: A -> multiset<X>, s: seq<A>, t: seq<A>, n: nat)
    requires n <= |s| && n <= |t|
    requires forall i :: 0 <= i < n ==> s[i] == t[i]
    ensures BagUpTo(f, s, n) == BagUpTo(f, t, n)
  {
    if n > 0 {
      BagSame(f, s, t, n - 1);
    }
  }

  lemma {:induction false} BagShift<A, X>(f: A -> multiset<X>, s: seq<A>, n: nat)
    requires n < |s|
    ensures BagUpTo(f, s, n + 1) == f(s[0]) + BagUpTo(f, s[1..], n)
  {
    if n > 0 {
      BagShift(f, s, n - 1);
    }
  }

  lemma {:induction false} BagUpdate<A, X>(f: A -> multiset<X>, s: seq<A>, i: nat, x: A, n: nat)
    requires i < n <= |s|
    ensures BagUpTo(f, s[i := x], n) + f(s[i]) == BagUpTo(f, s, n) + f(x)
  {
    if i == n - 1 {
      BagSame(f, s, s[i := x], i);
    } else {
      BagUpdate(f, s, i, x, n - 1);
      var a, b, c := BagUpTo(f, s[i := x], n - 1), BagUpTo(f, s, n - 1), f(s[n - 1]);
      assert (a + c) + f(s[i]) == (a + f(s[i])) + c == (b + f(x)) + c == (b + c) + f(x);
    }
  }

  // How one element y of the sum changes with the sequence.

  lemma CountSnoc<A, X>(f: A -> multiset<X>, s: seq<A>, x: A, y: X)
    ensures Bag(f, s + [x])[y] == Bag(f, s)[y] + f(x)[y]
  {
    BagSame(f, s, s + [x], |s|);
  }

  lemma CountCons<A, X>(f: A -> multiset<X>, s: seq<A>, y: X)
    requires s != []
    ensures Bag(f, s)[y] == f(s[0])[y] + Bag(f, s[1..])[y]
  {
    BagShift(f, s, |s| - 1);
  }

  lemma CountUpdate<A, X>(f: A -> multiset<X>, s: seq<A>, i: nat, x: A, y: X)
    requires i < |s|
    ensures Bag(f, s[i := x])[y] + f(s[i])[y] == Bag(f, s)[y] + f(x)[y]
  {
    BagUpdate(f, s, i, x, |s|);
    assert (Bag(f, s[i := x]) + f(s[i]))[y] == (Bag(f, s) + f(x))[y];
  }

  lemma {:induction false} BagUpToHas<A, X>(f: A -> multiset<X>, s: seq<A>, i: nat, n: nat)
    requires i < n <= |s|
    ensures f(s[i]) <= BagUpTo(f, s, n)
  {
    if i < n - 1 {
      BagUpToHas(f, s, i, n - 1);
    }
  }

  lemma BagHas<A, X>(f: A -> multiset<X>, s: seq<A>, i: nat)
    requires i < |s|
    ensures f(s[i]) <= Bag(f, s)
  {
    BagUpToHas(f, s, i, |s|);
  }

  /** Every element of the sum comes from some position of the sequence. */
  lemma {:induction false} BagFind<A, X>(f: A -> multiset<X>, s: seq<A>, n: nat, y: X) returns (i: nat)
    requires n <= |s| && y in BagUpTo(f, s, n)
    ensures i < n && y in f(s[i])
  {
    if y in f(s[n - 1]) {
      i := n - 1;
    } else {
      i := BagFind(f, s, n - 1, y);
    }
  }

  lemma BagWithout<A, X>(f: A -> multiset<X>, s: seq<A>, y: X)
    requires forall i :: 0 <= i < |s| ==> y !in f(s[i])
    ensures Bag(f, s)[y] == 0
  {
    if y in Bag(f, s) {
      var i := BagFind(f, s, |s|, y);
    }
  }

  /** The sum of the naturals f(x) over the elements x of s. */
  ghost function Total<A>(f: A -> nat, s: seq<A>): nat {
    TotalUpTo(f, s, |s|)
  }

  ghost function TotalUpTo<A>(f: A -> nat, s: seq<A>, n: nat): nat
    requires n <= |s|
  {
    if n == 0 then 0 else TotalUpTo(f, s, n - 1) + f(s[n - 1])
  }

  lemma {:induction false} TotalSame<A>(f: A -> nat, s: seq<A>, t: seq<A>, n: nat)
    requires n <= |s| && n <= |t|
    requires forall i :: 0 <= i < n ==> s[i] == t[i]
    ensures TotalUpTo(f, s, n) == TotalUpTo(f, t, n)
  {
    if n > 0 {
      TotalSame(f, s, t, n - 1);
    }
  }

  lemma {:induction false} TotalUpToUpdate<A>(f: A -> nat, s: seq<A>, i: nat, x: A, n: nat)
    requires i < n <= |s|
    ensures TotalUpTo(f, s[i := x], n) + f(s[i]) == TotalUpTo(f, s, n) + f(x)
  {
    if i == n - 1 {
      TotalSame(f, s, s[i := x], i);
    } else {
      TotalUpToUpdate(f, s, i, x, n - 1);
    }
  }

  lemma TotalUpdate<A>(f: A -> nat, s: seq<A>, i: nat, x: A)
    requires i < |s|
    ensures Total(f, s[i := x]) + f(s[i]) == Total(f, s) + f(x)
  {
    TotalUpToUpdate(f, s, i, x, |s|);
  }

  lemma {:induction false} TotalUpToHas<A>(f: A -> nat, s: seq<A>, i: nat, n: nat)
    requires i < n <= |s|
    ensures f(s[i]) <= TotalUpTo(f, s, n)
  {
    if i < n - 1 {
      TotalUpToHas(f, s, i, n - 1);
    }
  }

  lemma TotalHas<A>(f: A -> nat, s: seq<A>, i: nat)
    requires i < |s|
    ensures f(s[i]) <= Total(f, s)
  {
    TotalUpToHas(f, s, i, |s|);
  }

  lemma {:induction false} TotalFind<A>(f: A -> nat, s: seq<A>, n: nat) returns (i: nat)
    requires n <= |s| && TotalUpTo(f, s, n) > 0
    ensures i < n && f(s[i]) > 0
  {
    if f(s[n - 1]) > 0 {
      i := n - 1;
    } else {
      i := TotalFind(f, s, n - 1);
    }
  }

  lemma TotalZero<A>(f: A -> nat, s: seq<A>)
    requires forall i :: 0 <= i < |s| ==> f(s[i]) == 0
    ensures Total(f, s) == 0
  {
    if Total(f, s) > 0 {
      var i := TotalFind(f, s, |s|);
    }
  }

  lemma {:induction false} TotalLeq<A>(f: A -> nat, g: A -> nat, s: seq<A>, n: nat)
    requires n <= |s|
    requires forall i :: 0 <= i < n ==> f(s[i]) <= g(s[i])
    ensures TotalUpTo(f, s, n) <= TotalUpTo(g, s, n)
  {
    if n > 0 {
      TotalLeq(f, g, s, n - 1);
    }
  }

  lemma {:induction false} TotalOnes<A>(f: A -> nat, s: seq<A>, n: nat)
    requires n <= |s|
    requires forall i :: 0 <= i < n ==> f(s[i]) <= 1
    ensures TotalUpTo(f, s, n) <= n
    ensures (forall i :: 0 <= i < n ==> f(s[i]) == 1) ==> TotalUpTo(f, s, n) == n
  {
    if n > 0 {
      TotalOnes(f, s, n - 1);
    }
  }

  /** The size of the sum is the sum of the sizes. */
  lemma {:induction false} BagSize<A, X>(f: A -> multiset<X>, g: A -> nat, s: seq<A>, n: nat)
    requires n <= |s|
    requires forall i :: 0 <= i < n ==> |f(s[i])| == g(s[i])
    ensures |BagUpTo(f, s, n)| == TotalUpTo(g, s, n)
  {
    if n > 0 {
      BagSize(f, g, s, n - 1);
    }
  }
}
