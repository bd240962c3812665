/**
 Sequence operations the core performs with JavaScript array methods: `filter`,
 `slice(0, n)`, `findIndex`, `indexOf`, and de-duplication in first-occurrence order.
 */
module Seqs {
  import opened Wrappers

  function Min(a: int, b: int): int {
    if a <= b then a else b
  }

  /** No element occurs twice. */
  predicate Distinct<T(==)>(s: seq<T>) {
    forall i, j :: 0 <= i < j < |s| ==> s[i] != s[j]
  }

  /** `s.filter(f)`: the elements satisfying `f`, in their original order. */
  function Filter<T(==,!new)>(f: T -> bool, s: seq<T>): (r: seq<T>)
    ensures |r| <= |s|
    ensures forall i :: 0 <= i < |r| ==> f(r[i])
    ensures forall x :: x in r <==> x in s && f(x)
    decreases |s|
  {
    if s == [] then []
    else if f(s[0]) then [s[0]] + Filter(f, s[1..])
    else Filter(f, s[1..])
  }

  /** Filtering commutes with concatenation, so the relative order of kept elements is preserved. */
  lemma {:induction false} FilterAppend<T(!new)>(f: T -> bool, a: seq<T>, b: seq<T>)
    ensures Filter(f, a + b) == Filter(f, a) + Filter(f, b)
    decreases |a|
  {
    if a == [] {
      assert a + b == b;
    } else {
      assert (a + b)[0] == a[0];
      assert (a + b)[1..] == a[1..] + b;
      FilterAppend(f, a[1..], b);
    }
  }

  /** `s.filter(f).slice(0, n)`: the first `n` elements satisfying `f`. */
  function FirstMatching<T(==,!new)>(f: T -> bool, s: seq<T>, n: nat): (r: seq<T>)
    ensures |r| == Min(n, |Filter(f, s)|)
    ensures forall i :: 0 <= i < |r| ==> f(r[i]) && r[i] in s
    ensures r <= Filter(f, s)
    ensures |r| < n ==> forall x :: x in s && f(x) ==> x in r
  {
    var all := Filter(f, s);
    if |all| <= n then all else all[..n]
  }

  /** `s.findIndex(f)`, with -1 read as `None`: the position of the first element satisfying `f`. */
  function FindIndex<T>(f: T -> bool, s: seq<T>): (r: Option<nat>)
    ensures r.None? <==> forall i :: 0 <= i < |s| ==> !f(s[i])
    ensures r.Some? ==> r.value < |s| && f(s[r.value])
    ensures r.Some? ==> forall j :: 0 <= j < r.value ==> !f(s[j])
    decreases |s|
  {
    if s == [] then None
    else if f(s[0]) then Some(0)
    else match FindIndex(f, s[1..])
      case None => None
      case Some(k) => Some(k + 1)
  }

  /** `s.indexOf(x)`: the first position of `x` in `s`, or -1 when it does not occur. */
  function IndexOf<T(==)>(s: seq<T>, x: T): (r: int)
    ensures -1 <= r < |s|
    ensures r == -1 <==> x !in s
    ensures r >= 0 ==> s[r] == x
    ensures forall j :: 0 <= j < r ==> s[j] != x
    decreases |s|
  {
    if s == [] then -1
    else if s[0] == x then 0
    else
      var k := IndexOf(s[1..], x);
      if k == -1 then -1 else k + 1
  }

  /**
   The reference de-duplication: the elements of `s` not in `seen`, each once, in
   order of first occurrence.
   */
  function Dedup<T(==,!new)>(seen: set<T>, s: seq<T>): (r: seq<T>)
    ensures Distinct(r)
    ensures forall x :: x in r <==> x in s && x !in seen
    ensures |r| <= |s|
    decreases |s|
  {
    if s == [] then []
    else if s[0] in seen then Dedup(seen, s[1..])
    else [s[0]] + Dedup(seen + {s[0]}, s[1..])
  }

  /** The set of elements of a sequence. */
  function Elements<T(==)>(s: seq<T>): set<T> {
    set x | x in s
  }

  /**
   `s.filter((x, i, a) => a.indexOf(x) === i)`, scanned from position `from`:
   keeps the element at position i exactly when i is its first position in `s`.
   */
  function KeepFirstOccurrences<T(==)>(s: seq<T>, from: nat): seq<T>
    requires from <= |s|
    decreases |s| - from
  {
    if from == |s| then []
    else (if IndexOf(s, s[from]) == from then [s[from]] else []) + KeepFirstOccurrences(s, from + 1)
  }

  /** The `indexOf` filter is the reference de-duplication on the part of `s` not yet scanned. */
  lemma {:induction false} KeepFirstOccurrencesIsDedup<T(!new)>(s: seq<T>, from: nat)
    requires from <= |s|
    ensures KeepFirstOccurrences(s, from) == Dedup(Elements(s[..from]), s[from..])
    decreases |s| - from
  {
    if from < |s| {
      var x := s[from];
      var seen := Elements(s[..from]);
      assert s[..from + 1] == s[..from] + [x];
      assert Elements(s[..from + 1]) == seen + {x};
      assert s[from..][0] == x && s[from..][1..] == s[from + 1..];
      KeepFirstOccurrencesIsDedup(s, from + 1);
      var k := IndexOf(s, x);
      if x in seen {
        assert x in s[..from];
        assert k != from;
        assert seen + {x} == seen;
      } else {
        assert x !in s[..from];
        assert s[..k + 1][from] == x;
        assert k == from;
      }
    } else {
      assert s[from..] == [];
    }
  }

  /** The whole `indexOf` filter removes duplicates and keeps first occurrences in order. */
  lemma KeepFirstOccurrencesDistinct<T(!new)>(s: seq<T>)
    ensures KeepFirstOccurrences(s, 0) == Dedup({}, s)
    ensures Distinct(KeepFirstOccurrences(s, 0))
    ensures forall x :: x in KeepFirstOccurrences(s, 0) <==> x in s
  {
    KeepFirstOccurrencesIsDedup(s, 0);
    assert s[..0] == [] && s[0..] == s;
    assert Elements<T>([]) == {};
  }
}
