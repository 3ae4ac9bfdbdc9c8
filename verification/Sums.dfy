/** Totals over a sequence of threads, and how one thread's step moves them. */
module Sums {

  function Sum<T>(ws: seq<T>, f: T -> nat): nat {
    if ws == [] then 0 else Sum(ws[..|ws| - 1], f) + f(ws[|ws| - 1])
  }

  lemma {:induction false} SumUpdate<T>(ws: seq<T>, f: T -> nat, i: nat, w: T)
    requires i < |ws|
    ensures Sum(ws[i := w], f) == Sum(ws, f) - f(ws[i]) + f(w)
  {
    var n := |ws| - 1;
    if i == n {
      assert ws[i := w][..n] == ws[..n];
    } else {
      assert ws[i := w][..n] == ws[..n][i := w];
      SumUpdate(ws[..n], f, i, w);
    }
  }

  lemma {:induction false} SumSame<T>(ws: seq<T>, vs: seq<T>, f: T -> nat)
    requires |ws| == |vs| && forall i | 0 <= i < |ws| :: f(ws[i]) == f(vs[i])
    ensures Sum(ws, f) == Sum(vs, f)
  {
    if ws != [] {
      SumSame(ws[..|ws| - 1], vs[..|vs| - 1], f);
    }
  }

  lemma {:induction false} SumAtLeast<T>(ws: seq<T>, f: T -> nat, i: nat)
    requires i < |ws|
    ensures Sum(ws, f) >= f(ws[i])
  {
    var n := |ws| - 1;
    if i < n {
      assert ws[..n][i] == ws[i];
      SumAtLeast(ws[..n], f, i);
    }
  }

  lemma {:induction false} SumPair<T>(ws: seq<T>, f: T -> nat, i: nat, j: nat)
    requires i < j < |ws|
    ensures Sum(ws, f) >= f(ws[i]) + f(ws[j])
  {
    var n := |ws| - 1;
    if j < n {
      assert ws[..n][i] == ws[i] && ws[..n][j] == ws[j];
      SumPair(ws[..n], f, i, j);
    } else {
      assert ws[..n][i] == ws[i];
      SumAtLeast(ws[..n], f, i);
    }
  }

  /** A positive total has a witness. */
  lemma {:induction false} SumWitness<T>(ws: seq<T>, f: T -> nat) returns (i: nat)
    requires Sum(ws, f) > 0
    ensures i < |ws| && f(ws[i]) > 0
  {
    var n := |ws| - 1;
    if f(ws[n]) > 0 {
      i := n;
    } else {
      i := SumWitness(ws[..n], f);
    }
  }

  lemma {:induction false} SumBound<T>(ws: seq<T>, f: T -> nat, b: nat)
    requires forall i | 0 <= i < |ws| :: f(ws[i]) <= b
    ensures Sum(ws, f) <= b * |ws|
  {
    if ws != [] {
      SumBound(ws[..|ws| - 1], f, b);
    }
  }

  lemma {:induction false} SumConstant<T>(ws: seq<T>, f: T -> nat, b: nat)
    requires forall i | 0 <= i < |ws| :: f(ws[i]) == b
    ensures Sum(ws, f) == b * |ws|
  {
    if ws != [] {
      SumConstant(ws[..|ws| - 1], f, b);
    }
  }

  /** A total of ones that reaches the number of threads has all of them. */
  lemma {:induction false} SumFull<T>(ws: seq<T>, f: T -> nat, i: nat)
    requires (forall j | 0 <= j < |ws| :: f(ws[j]) <= 1) && Sum(ws, f) == |ws| && i < |ws|
    ensures f(ws[i]) == 1
  {
    var n := |ws| - 1;
    SumBound(ws[..n], f, 1);
    if i < n {
      assert ws[..n][i] == ws[i];
      SumFull(ws[..n], f, i);
    }
  }

  /** A total of ones that misses the number of threads misses a thread. */
  lemma {:induction false} SumMissing<T>(ws: seq<T>, f: T -> nat) returns (i: nat)
    requires (forall j | 0 <= j < |ws| :: f(ws[j]) <= 1) && Sum(ws, f) < |ws|
    ensures i < |ws| && f(ws[i]) == 0
  {
    var n := |ws| - 1;
    if f(ws[n]) == 0 {
      i := n;
    } else {
      i := SumMissing(ws[..n], f);
    }
  }

  lemma {:induction false} SumMonotone<T>(ws: seq<T>, vs: seq<T>, f: T -> nat, g: T -> nat)
    requires |ws| == |vs| && forall i | 0 <= i < |ws| :: f(ws[i]) <= g(vs[i])
    ensures Sum(ws, f) <= Sum(vs, g)
  {
    if ws != [] {
      SumMonotone(ws[..|ws| - 1], vs[..|vs| - 1], f, g);
    }
  }

  /** One thread's share falls and no other rises: so does the total. */
  lemma {:induction false} SumFalls<T>(ws: seq<T>, vs: seq<T>, f: T -> nat, g: T -> nat, i: nat)
    requires i < |ws| == |vs|
    requires (forall j | 0 <= j < |ws| :: f(ws[j]) <= g(vs[j])) && f(ws[i]) < g(vs[i])
    ensures Sum(ws, f) < Sum(vs, g)
  {
    var n := |ws| - 1;
    if i == n {
      SumMonotone(ws[..n], vs[..n], f, g);
    } else {
      assert ws[..n][i] == ws[i] && vs[..n][i] == vs[i];
      SumFalls(ws[..n], vs[..n], f, g, i);
    }
  }
}
