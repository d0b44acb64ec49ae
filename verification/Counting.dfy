/** Counting the elements of queues that satisfy a test, over one queue and over a vector of queues. */
module Counting {

  function Bit(b: bool): nat { if b then 1 else 0 }

  function Tally<T>(q: seq<T>, f: T -> bool): (n: nat) {
    if q == [] then 0 else Bit(f(q[0])) + Tally(q[1..], f)
  }

  function Sum<T>(qs: seq<seq<T>>, f: T -> bool): (n: nat) {
    if qs == [] then 0 else Tally(qs[0], f) + Sum(qs[1..], f)
  }

  lemma {:induction false} TallyConcat<T>(q: seq<T>, w: seq<T>, f: T -> bool)
    ensures Tally(q + w, f) == Tally(q, f) + Tally(w, f)
  {
    if q == [] {
      assert q + w == w;
    } else {
      assert (q + w)[1..] == q[1..] + w;
      TallyConcat(q[1..], w, f);
    }
  }

  lemma TallyPush<T>(q: seq<T>, e: T, f: T -> bool)
    ensures Tally(q + [e], f) == Tally(q, f) + Bit(f(e))
  {
    TallyConcat(q, [e], f);
  }

  lemma TallyErase<T>(q: seq<T>, k: nat, f: T -> bool)
    requires k < |q|
    ensures Tally(q, f) == Tally(q[..k] + q[k + 1..], f) + Bit(f(q[k]))
  {
    TallyConcat(q[..k], q[k + 1..], f);
    TallyConcat(q[..k], q[k..], f);
    assert q == q[..k] + q[k..];
  }

  lemma {:induction false} SumUpdate<T>(qs: seq<seq<T>>, i: nat, q: seq<T>, f: T -> bool)
    requires i < |qs|
    ensures Sum(qs[i := q], f) + Tally(qs[i], f) == Sum(qs, f) + Tally(q, f)
  {
    if i == 0 {
      assert qs[i := q][1..] == qs[1..];
    } else {
      assert qs[i := q][1..] == qs[1..][i - 1 := q];
      SumUpdate(qs[1..], i - 1, q, f);
    }
  }

  lemma SumPush<T>(qs: seq<seq<T>>, i: nat, e: T, f: T -> bool)
    requires i < |qs|
    ensures Sum(qs[i := qs[i] + [e]], f) == Sum(qs, f) + Bit(f(e))
  {
    SumUpdate(qs, i, qs[i] + [e], f);
    TallyPush(qs[i], e, f);
  }

  lemma SumPop<T>(qs: seq<seq<T>>, i: nat, f: T -> bool)
    requires i < |qs| && qs[i] != []
    ensures Sum(qs, f) == Sum(qs[i := qs[i][1..]], f) + Bit(f(qs[i][0]))
  {
    SumUpdate(qs, i, qs[i][1..], f);
  }

  lemma SumIncludes<T>(qs: seq<seq<T>>, i: nat, f: T -> bool)
    requires i < |qs| && qs[i] != [] && f(qs[i][0])
    ensures Sum(qs, f) > 0
  {
    SumPop(qs, i, f);
  }

  lemma {:induction false} NoneTallied<T>(q: seq<T>, f: T -> bool)
    requires forall k :: 0 <= k < |q| ==> !f(q[k])
    ensures Tally(q, f) == 0
  {
    if q != [] { NoneTallied(q[1..], f); }
  }

  lemma {:induction false} TallyZeroIff<T>(q: seq<T>, f: T -> bool)
    ensures Tally(q, f) == 0 <==> forall e :: e in q ==> !f(e)
  {
    if q != [] {
      TallyZeroIff(q[1..], f);
      assert q == [q[0]] + q[1..];
    }
  }

  lemma {:induction false} SumZeroIff<T>(qs: seq<seq<T>>, f: T -> bool)
    ensures Sum(qs, f) == 0 <==> forall st, e :: 0 <= st < |qs| && e in qs[st] ==> !f(e)
  {
    if qs != [] {
      TallyZeroIff(qs[0], f);
      SumZeroIff(qs[1..], f);
      assert forall st :: 0 < st < |qs| ==> qs[st] == qs[1..][st - 1];
    }
  }
}
