/** Sequence helpers shared by the model: `Array.prototype.filter` and string concatenation. */
module Seqs {

  /** `s.filter(keep)`: the elements of `s` that `keep` accepts, in their original order. */
  function Filter<T>(s: seq<T>, keep: T -> bool): (r: seq<T>)
    ensures |r| <= |s|
  {
    if s == [] then []
    else (if keep(s[0]) then [s[0]] else []) + Filter(s[1..], keep)
  }

  /** Every kept element comes from `s` and is accepted, and every accepted element of `s` is
      kept. */
  lemma {:induction false} FilterMembers<T>(s: seq<T>, keep: T -> bool)
    ensures forall k | 0 <= k < |Filter(s, keep)| :: Filter(s, keep)[k] in s && keep(Filter(s, keep)[k])
    ensures forall k | 0 <= k < |s| && keep(s[k]) :: s[k] in Filter(s, keep)
  {
    if s != [] {
      FilterMembers(s[1..], keep);
      var rest := Filter(s[1..], keep);
      var r := Filter(s, keep);
      assert r == (if keep(s[0]) then [s[0]] else []) + rest;
      forall k | 0 <= k < |r| ensures r[k] in s && keep(r[k]) {
        if keep(s[0]) && k == 0 {
          assert r[k] == s[0];
        } else {
          var j := if keep(s[0]) then k - 1 else k;
          assert r[k] == rest[j];
          assert rest[j] in s[1..];
        }
      }
      forall k | 0 <= k < |s| && keep(s[k]) ensures s[k] in r {
        if k == 0 {
          assert r[0] == s[0];
        } else {
          assert s[k] == s[1..][k - 1];
          assert s[k] in rest;
        }
      }
    }
  }

  /** Filtering a concatenation filters each half: the kept elements keep their relative order. */
  lemma {:induction false} FilterAppend<T>(a: seq<T>, b: seq<T>, keep: T -> bool)
    ensures Filter(a + b, keep) == Filter(a, keep) + Filter(b, keep)
  {
    if a == [] {
      assert a + b == b;
    } else {
      var head := if keep(a[0]) then [a[0]] else [];
      assert (a + b)[0] == a[0];
      assert (a + b)[1..] == a[1..] + b;
      FilterAppend(a[1..], b, keep);
      calc {
        Filter(a + b, keep);
        head + Filter(a[1..] + b, keep);
        head + (Filter(a[1..], keep) + Filter(b, keep));
        { assert head + (Filter(a[1..], keep) + Filter(b, keep))
            == (head + Filter(a[1..], keep)) + Filter(b, keep); }
        (head + Filter(a[1..], keep)) + Filter(b, keep);
      }
    }
  }

  /** Filtering a list with one more element at the end. */
  lemma FilterSnoc<T>(a: seq<T>, x: T, keep: T -> bool)
    ensures Filter(a + [x], keep) == if keep(x) then Filter(a, keep) + [x] else Filter(a, keep)
  {
    FilterAppend(a, [x], keep);
    assert Filter([x], keep) == (if keep(x) then [x] else []) + Filter([], keep);
    if !keep(x) {
      assert Filter(a, keep) + [] == Filter(a, keep);
    }
  }

  /** The concatenation of a list of strings, left to right. */
  function Concat(ss: seq<string>): string {
    if ss == [] then "" else ss[0] + Concat(ss[1..])
  }

  lemma {:induction false} ConcatSnoc(ss: seq<string>, s: string)
    ensures Concat(ss + [s]) == Concat(ss) + s
  {
    if ss != [] {
      assert (ss + [s])[1..] == ss[1..] + [s];
      ConcatSnoc(ss[1..], s);
    }
  }
}
