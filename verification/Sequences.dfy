/** Sums and occurrence counts over sequences, and how they change when one element changes. */
module Sequences {

  /** The sum of the weights w(x) over the elements of s. */
  function Sum<T>(w: T -> int, s: seq<T>): int {
    if s == [] then 0 else w(s[0]) + Sum(w, s[1..])
  }

  /** How many elements of s have key k. */
  function Count<T>(key: T -> int, s: seq<T>, k: int): nat {
    if s == [] then 0 else (if key(s[0]) == k then 1 else 0) + Count(key, s[1..], k)
  }

  function RemoveAt<T>(s: seq<T>, i: nat): seq<T>
    requires i < |s|
  {
    s[..i] + s[i + 1..]
  }

  /** The least index at or after `from` whose element has key k, or |s|. */
  function FirstWith<T>(key: T -> int, s: seq<T>, k: int, from: nat := 0): (i: nat)
    requires from <= |s|
    ensures from <= i <= |s|
    ensures i < |s| ==> key(s[i]) == k
    ensures forall j :: from <= j < i ==> key(s[j]) != k
    decreases |s| - from
  {
    if from == |s| then |s| else if key(s[from]) == k then from else FirstWith(key, s, k, from + 1)
  }

  lemma {:induction false} SumUpdate<T>(w: T -> int, s: seq<T>, i: nat, x: T)
    requires i < |s|
    ensures Sum(w, s[i := x]) == Sum(w, s) - w(s[i]) + w(x)
  {
    if i == 0 {
      assert s[0 := x][1..] == s[1..];
    } else {
      assert s[i := x][1..] == s[1..][i - 1 := x];
      SumUpdate(w, s[1..], i - 1, x);
    }
  }

  /** With no negative weight, one element never outweighs the whole sequence. */
  lemma {:induction false} SumAtLeast<T>(w: T -> int, s: seq<T>, i: nat)
    requires i < |s| && forall j :: 0 <= j < |s| ==> w(s[j]) >= 0
    ensures Sum(w, s) >= w(s[i])
  {
    SumNonNegative(w, s[1..]);
    if i > 0 {
      SumAtLeast(w, s[1..], i - 1);
    }
  }

  lemma {:induction false} SumNonNegative<T>(w: T -> int, s: seq<T>)
    requires forall j :: 0 <= j < |s| ==> w(s[j]) >= 0
    ensures Sum(w, s) >= 0
  {
    if s != [] {
      SumNonNegative(w, s[1..]);
    }
  }

  lemma {:induction false} SumZero<T>(w: T -> int, s: seq<T>)
    requires forall j :: 0 <= j < |s| ==> w(s[j]) == 0
    ensures Sum(w, s) == 0
  {
    if s != [] {
      SumZero(w, s[1..]);
    }
  }

  /** A non-negative sum that vanishes has only vanishing terms. */
  lemma {:induction false} SumZeroAll<T>(w: T -> int, s: seq<T>)
    requires Sum(w, s) <= 0 && forall j :: 0 <= j < |s| ==> w(s[j]) >= 0
    ensures forall j :: 0 <= j < |s| ==> w(s[j]) == 0
  {
    forall j | 0 <= j < |s| ensures w(s[j]) == 0 {
      SumAtLeast(w, s, j);
    }
  }

  lemma {:induction false} SumMonotone<T>(v: T -> int, w: T -> int, s: seq<T>)
    requires forall j :: 0 <= j < |s| ==> v(s[j]) <= w(s[j])
    ensures Sum(v, s) <= Sum(w, s)
  {
    if s != [] {
      SumMonotone(v, w, s[1..]);
    }
  }

  /** Pointwise equality up to a second weight: u = v + w adds up. */
  lemma {:induction false} SumSplit<T>(u: T -> int, v: T -> int, w: T -> int, s: seq<T>)
    requires forall j :: 0 <= j < |s| ==> u(s[j]) == v(s[j]) + w(s[j])
    ensures Sum(u, s) == Sum(v, s) + Sum(w, s)
  {
    if s != [] {
      SumSplit(u, v, w, s[1..]);
    }
  }

  /** Two sequences of equal length with pointwise equal weights have equal sums. */
  lemma {:induction false} SumPointwise<T, U>(v: T -> int, w: U -> int, s: seq<T>, t: seq<U>)
    requires |s| == |t| && forall j :: 0 <= j < |s| ==> v(s[j]) == w(t[j])
    ensures Sum(v, s) == Sum(w, t)
  {
    if s != [] {
      SumPointwise(v, w, s[1..], t[1..]);
    }
  }

  lemma {:induction false} CountAppend<T>(key: T -> int, s: seq<T>, x: T, k: int)
    ensures Count(key, s + [x], k) == Count(key, s, k) + (if key(x) == k then 1 else 0)
  {
    if s == [] {
      assert s + [x] == [x];
    } else {
      assert (s + [x])[1..] == s[1..] + [x];
      CountAppend(key, s[1..], x, k);
    }
  }

  lemma {:induction false} CountRemove<T>(key: T -> int, s: seq<T>, i: nat, k: int)
    requires i < |s|
    ensures Count(key, RemoveAt(s, i), k) == Count(key, s, k) - (if key(s[i]) == k then 1 else 0)
  {
    if i == 0 {
      assert RemoveAt(s, 0) == s[1..];
    } else {
      assert RemoveAt(s, i)[1..] == RemoveAt(s[1..], i - 1);
      CountRemove(key, s[1..], i - 1, k);
    }
  }

  lemma {:induction false} CountUpdate<T>(key: T -> int, s: seq<T>, i: nat, x: T, k: int)
    requires i < |s|
    ensures Count(key, s[i := x], k)
         == Count(key, s, k) - (if key(s[i]) == k then 1 else 0) + (if key(x) == k then 1 else 0)
  {
    if i == 0 {
      assert s[0 := x][1..] == s[1..];
    } else {
      assert s[i := x][1..] == s[1..][i - 1 := x];
      CountUpdate(key, s[1..], i - 1, x, k);
    }
  }

  /** A positive count has a witness and a zero count has none. */
  lemma {:induction false} CountIff<T>(key: T -> int, s: seq<T>, k: int)
    ensures Count(key, s, k) > 0 <==> exists i :: 0 <= i < |s| && key(s[i]) == k
  {
    if s != [] {
      CountIff(key, s[1..], k);
      forall i | 0 <= i < |s| && key(s[i]) == k ensures Count(key, s, k) > 0 {
        if i > 0 {
          assert s[1..][i - 1] == s[i];
        }
      }
      if Count(key, s, k) > 0 && key(s[0]) != k {
        var i :| 0 <= i < |s[1..]| && key(s[1..][i]) == k;
        assert s[i + 1] == s[1..][i];
      }
    }
  }

  /** Two different positions with key k make the count at least two. */
  lemma {:induction false} CountTwo<T>(key: T -> int, s: seq<T>, i: nat, j: nat, k: int)
    requires i < j < |s| && key(s[i]) == k && key(s[j]) == k
    ensures Count(key, s, k) >= 2
  {
    if i == 0 {
      assert s[1..][j - 1] == s[j];
      CountIff(key, s[1..], k);
    } else {
      CountTwo(key, s[1..], i - 1, j - 1, k);
    }
  }

  lemma {:induction false} CountPointwise<T, U>(key: T -> int, key': U -> int, s: seq<T>, t: seq<U>, k: int)
    requires |s| == |t| && forall j :: 0 <= j < |s| ==> key(s[j]) == key'(t[j])
    ensures Count(key, s, k) == Count(key', t, k)
  {
    if s != [] {
      CountPointwise(key, key', s[1..], t[1..], k);
    }
  }

  lemma {:induction false} SumTwoOnes<T>(w: T -> int, s: seq<T>, i: nat, j: nat)
    requires i < j < |s| && w(s[i]) == w(s[j]) == 1 && forall k :: 0 <= k < |s| ==> w(s[k]) >= 0
    ensures Sum(w, s) >= 2
  {
    if i == 0 {
      assert s[1..][j - 1] == s[j];
      SumAtLeast(w, s[1..], j - 1);
    } else {
      SumTwoOnes(w, s[1..], i - 1, j - 1);
    }
  }

  lemma {:induction false} SumSomeOne<T>(w: T -> int, s: seq<T>) returns (i: nat)
    requires Sum(w, s) > 0 && forall k :: 0 <= k < |s| ==> 0 <= w(s[k]) <= 1
    ensures i < |s| && w(s[i]) == 1
  {
    if w(s[0]) == 1 {
      i := 0;
    } else {
      i := SumSomeOne(w, s[1..]);
      i := i + 1;
    }
  }

  lemma {:induction false} SumAtMost<T>(w: T -> int, s: seq<T>)
    requires forall j :: 0 <= j < |s| ==> w(s[j]) <= 1
    ensures Sum(w, s) <= |s|
  {
    if s != [] {
      SumAtMost(w, s[1..]);
    }
  }

  lemma {:induction false} SumAllButOne<T>(w: T -> int, s: seq<T>, i: nat)
    requires i < |s| && w(s[i]) == 0 && forall j :: 0 <= j < |s| ==> w(s[j]) <= 1
    ensures Sum(w, s) <= |s| - 1
  {
    if i == 0 {
      SumAtMost(w, s[1..]);
    } else {
      SumAllButOne(w, s[1..], i - 1);
    }
  }
}
