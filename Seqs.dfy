/** Sequence helpers shared by the model: `Keep` is JavaScript's
    `Array.prototype.filter`, `IsSubsequence` states order preservation. */
module Seqs {

  /** The elements of `s` that satisfy `p`, in their original order. */
  function Keep<T>(s: seq<T>, p: T -> bool): (r: seq<T>)
    ensures |r| <= |s|
  {
    if s == [] then []
    else (if p(s[0]) then [s[0]] else []) + Keep(s[1..], p)
  }

  /** What `Keep` keeps: elements of `s` that satisfy `p`, and all of them. */
  lemma {:induction false} KeepMembers<T>(s: seq<T>, p: T -> bool)
    ensures forall i :: 0 <= i < |Keep(s, p)| ==> Keep(s, p)[i] in s && p(Keep(s, p)[i])
    ensures forall i :: 0 <= i < |s| && p(s[i]) ==> s[i] in Keep(s, p)
  {
    if s != [] {
      KeepMembers(s[1..], p);
      KeepCons(s[0], s[1..], p);
      assert s == [s[0]] + s[1..];
      var r := Keep(s, p);
      var rest := Keep(s[1..], p);
      forall i | 0 <= i < |r|
        ensures r[i] in s && p(r[i])
      {
        if !p(s[0]) {
          assert r[i] == rest[i];
        } else if i > 0 {
          assert r[i] == rest[i - 1];
        }
      }
      forall i | 0 <= i < |s| && p(s[i])
        ensures s[i] in r
      {
        if i > 0 {
          assert s[i] == s[1..][i - 1];
        }
      }
    }
  }

  /** `a` is obtained from `b` by deleting elements, keeping the rest in order. */
  predicate IsSubsequence<T(==)>(a: seq<T>, b: seq<T>)
    decreases |b|
  {
    if a == [] then true
    else if b == [] then false
    else if a[0] == b[0] then IsSubsequence(a[1..], b[1..])
    else IsSubsequence(a, b[1..])
  }

  lemma {:induction false} KeepIsSubsequence<T>(s: seq<T>, p: T -> bool)
    ensures IsSubsequence(Keep(s, p), s)
  {
    if s != [] {
      KeepIsSubsequence(s[1..], p);
      var rest := Keep(s[1..], p);
      if p(s[0]) {
        assert Keep(s, p) == [s[0]] + rest;
        assert ([s[0]] + rest)[1..] == rest;
      } else {
        assert Keep(s, p) == rest;
        SubsequenceOfTail(rest, s);
      }
    }
  }

  /** A subsequence of the tail is a subsequence of the whole. */
  lemma {:induction false} SubsequenceOfTail<T>(a: seq<T>, b: seq<T>)
    requires b != []
    requires IsSubsequence(a, b[1..])
    ensures IsSubsequence(a, b)
    decreases |a| + |b|
  {
    if a != [] && a[0] == b[0] {
      SubsequenceDropHead(a, b[1..]);
    }
  }

  /** If `a` is a subsequence of `b`, so is the tail of `a`. */
  lemma {:induction false} SubsequenceDropHead<T>(a: seq<T>, b: seq<T>)
    requires a != []
    requires IsSubsequence(a, b)
    ensures IsSubsequence(a[1..], b)
    decreases |a| + |b|
  {
    assert b != [];
    if a[0] == b[0] {
      SubsequenceOfTail(a[1..], b);
    } else {
      SubsequenceDropHead(a, b[1..]);
      SubsequenceOfTail(a[1..], b);
    }
  }

  /** Keeping with a predicate that holds everywhere changes nothing. */
  lemma {:induction false} KeepAll<T>(s: seq<T>, p: T -> bool)
    requires forall x :: x in s ==> p(x)
    ensures Keep(s, p) == s
  {
    if s != [] {
      KeepAll(s[1..], p);
      assert [s[0]] + s[1..] == s;
    }
  }

  /** Keep depends only on the values of the predicate. */
  lemma {:induction false} KeepExt<T>(s: seq<T>, p: T -> bool, q: T -> bool)
    requires forall x :: x in s ==> p(x) == q(x)
    ensures Keep(s, p) == Keep(s, q)
  {
    if s != [] {
      KeepExt(s[1..], p, q);
    }
  }

  /** The order of two filter passes does not matter. */
  lemma KeepCommute<T>(s: seq<T>, p: T -> bool, q: T -> bool)
    ensures Keep(Keep(s, p), q) == Keep(Keep(s, q), p)
  {
    var both := x => p(x) && q(x);
    KeepTwo(s, p, q, both);
    KeepTwo(s, q, p, both);
  }

  /** Keeping twice with the same predicate is keeping once. */
  lemma KeepIdempotent<T>(s: seq<T>, p: T -> bool)
    ensures Keep(Keep(s, p), p) == Keep(s, p)
  {
    KeepMembers(s, p);
    KeepAll(Keep(s, p), p);
  }

  /** Keep over a concatenation. */
  lemma {:induction false} KeepAppend<T>(a: seq<T>, b: seq<T>, p: T -> bool)
    ensures Keep(a + b, p) == Keep(a, p) + Keep(b, p)
  {
    if a == [] {
      assert a + b == b;
    } else {
      var h := if p(a[0]) then [a[0]] else [];
      assert (a + b)[0] == a[0];
      assert (a + b)[1..] == a[1..] + b;
      assert Keep(a + b, p) == h + Keep(a[1..] + b, p);
      KeepAppend(a[1..], b, p);
      assert Keep(a, p) == h + Keep(a[1..], p);
      assert h + (Keep(a[1..], p) + Keep(b, p)) == (h + Keep(a[1..], p)) + Keep(b, p);
    }
  }

  /** Keep of one element followed by the rest. */
  lemma KeepCons<T>(x: T, s: seq<T>, p: T -> bool)
    ensures Keep([x] + s, p) == (if p(x) then [x] else []) + Keep(s, p)
  {
    assert ([x] + s)[1..] == s;
  }

  /** Two successive passes are one pass with any predicate that agrees
      with their conjunction on the elements of `s`. */
  lemma {:induction false} KeepTwo<T>(s: seq<T>, p: T -> bool, q: T -> bool, m: T -> bool)
    requires forall x :: x in s ==> (p(x) && q(x)) == m(x)
    ensures Keep(Keep(s, p), q) == Keep(s, m)
  {
    if s != [] {
      KeepTwo(s[1..], p, q, m);
      var rest := Keep(s[1..], p);
      if p(s[0]) {
        assert Keep(s, p) == [s[0]] + rest;
        assert ([s[0]] + rest)[1..] == rest;
      } else {
        assert Keep(s, p) == rest;
      }
    }
  }

  /** The same for four successive passes. */
  lemma KeepFour<T>(s: seq<T>, p: T -> bool, q: T -> bool, r: T -> bool, t: T -> bool, m: T -> bool)
    requires forall x :: x in s ==> (p(x) && q(x) && r(x) && t(x)) == m(x)
    ensures Keep(Keep(Keep(Keep(s, p), q), r), t) == Keep(s, m)
  {
    var pq := x => p(x) && q(x);
    var pqr := x => pq(x) && r(x);
    KeepTwo(s, p, q, pq);
    KeepTwo(s, pq, r, pqr);
    KeepTwo(s, pqr, t, m);
  }

  /** Keep over a suffix, one element at a time. */
  lemma KeepSuffixStep<T>(s: seq<T>, i: nat, p: T -> bool)
    requires i < |s|
    ensures Keep(s[i..], p) == (if p(s[i]) then [s[i]] else []) + Keep(s[i + 1..], p)
  {
    assert s[i..] == [s[i]] + s[i + 1..];
    KeepCons(s[i], s[i + 1..], p);
  }

  /** A predicate that holds at exactly one position keeps exactly that element. */
  lemma {:induction false} KeepExactlyOne<T>(s: seq<T>, p: T -> bool, k: nat)
    requires k < |s|
    requires forall i :: 0 <= i < |s| ==> (p(s[i]) <==> i == k)
    ensures Keep(s, p) == [s[k]]
  {
    KeepCons(s[0], s[1..], p);
    assert s == [s[0]] + s[1..];
    if k == 0 {
      KeepNone(s[1..], p);
    } else {
      KeepExactlyOne(s[1..], p, k - 1);
    }
  }

  /** A predicate that holds nowhere keeps nothing. */
  lemma {:induction false} KeepNone<T>(s: seq<T>, p: T -> bool)
    requires forall i :: 0 <= i < |s| ==> !p(s[i])
    ensures Keep(s, p) == []
  {
    if s != [] {
      KeepNone(s[1..], p);
    }
  }

  /** The index `Array.prototype.slice` resolves an argument `k` to: counted
      from the end when negative, and clamped to `[0, n]`. */
  function SliceIndex(k: int, n: nat): (i: nat)
    ensures i <= n
    ensures 0 <= k ==> i == if k < n then k else n
  {
    if k < 0 then (if n + k < 0 then 0 else n + k) else if k < n then k else n
  }

  /** `s.slice(start, end)`. */
  function Slice<T>(s: seq<T>, start: int, end: int): (r: seq<T>)
    ensures |r| <= |s|
    ensures 0 <= start <= end ==> r == s[SliceIndex(start, |s|)..SliceIndex(end, |s|)]
  {
    var i, j := SliceIndex(start, |s|), SliceIndex(end, |s|);
    if i < j then s[i..j] else []
  }
}
