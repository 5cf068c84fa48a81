/** Counting what lies in queues and lists of queues. */
module Counting {
  function Bit(b: bool): nat { if b then 1 else 0 }

  function Min(a: nat, b: nat): nat { if a < b then a else b }

  /** The queue with its i-th element taken out. */
  function Without<T>(q: seq<T>, i: nat): seq<T>
    requires i < |q|
  {
    q[..i] + q[i + 1..]
  }

  function Count<T>(q: seq<T>, f: T -> bool): nat {
    if q == [] then 0 else Bit(f(q[0])) + Count(q[1..], f)
  }

  function CountAny<T>(qs: seq<seq<T>>, f: T -> bool): nat {
    if qs == [] then 0 else Count(qs[0], f) + CountAny(qs[1..], f)
  }

  lemma {:induction false} CountAppend<T>(q: seq<T>, r: seq<T>, f: T -> bool)
    ensures Count(q + r, f) == Count(q, f) + Count(r, f)
  {
    if q == [] {
      assert q + r == r;
    } else {
      assert (q + r)[1..] == q[1..] + r;
      CountAppend(q[1..], r, f);
    }
  }

  lemma CountPush<T>(q: seq<T>, e: T, f: T -> bool)
    ensures Count(q + [e], f) == Count(q, f) + Bit(f(e))
  {
    CountAppend(q, [e], f);
  }

  lemma CountWithout<T>(q: seq<T>, i: nat, f: T -> bool)
    requires i < |q|
    ensures Count(q, f) == Count(Without(q, i), f) + Bit(f(q[i]))
  {
    assert q == q[..i] + ([q[i]] + q[i + 1..]);
    assert ([q[i]] + q[i + 1..])[1..] == q[i + 1..];
    CountAppend(q[..i], [q[i]] + q[i + 1..], f);
    CountAppend(q[..i], q[i + 1..], f);
  }

  /** What is left after one element is taken out. */
  lemma WithoutAt<T>(q: seq<T>, i: nat)
    requires i < |q|
    ensures |Without(q, i)| == |q| - 1
    ensures forall j :: 0 <= j < |q| - 1 ==> Without(q, i)[j] == q[if j < i then j else j + 1]
  {
  }

  lemma {:induction false} CountZero<T>(q: seq<T>, f: T -> bool)
    ensures Count(q, f) == 0 <==> forall i :: 0 <= i < |q| ==> !f(q[i])
  {
    if q != [] {
      CountZero(q[1..], f);
      if Count(q, f) == 0 {
        forall i | 0 <= i < |q|
          ensures !f(q[i])
        {
          assert i > 0 ==> q[i] == q[1..][i - 1];
        }
      }
    }
  }

  lemma {:induction false} CountAnyUpdate<T>(qs: seq<seq<T>>, j: nat, q: seq<T>, f: T -> bool)
    requires j < |qs|
    ensures CountAny(qs[j := q], f) + Count(qs[j], f) == CountAny(qs, f) + Count(q, f)
  {
    if j > 0 {
      assert qs[j := q][1..] == qs[1..][j - 1 := q];
      CountAnyUpdate(qs[1..], j - 1, q, f);
    } else {
      assert qs[j := q][1..] == qs[1..];
    }
  }

  lemma {:induction false} CountAnyEmpty<T>(qs: seq<seq<T>>, f: T -> bool)
    requires forall i :: 0 <= i < |qs| ==> qs[i] == []
    ensures CountAny(qs, f) == 0
  {
    if qs != [] {
      CountAnyEmpty(qs[1..], f);
    }
  }

  lemma {:induction false} CountAnyAt<T>(qs: seq<seq<T>>, j: nat, f: T -> bool)
    requires j < |qs|
    ensures Count(qs[j], f) <= CountAny(qs, f)
  {
    if j > 0 {
      CountAnyAt(qs[1..], j - 1, f);
    }
  }
}
