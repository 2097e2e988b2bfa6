/** Value types and text helpers shared by the other modules. */
module Prelude {

  datatype Option<+T> = None | Some(value: T)

  datatype Result<+T, +E> = Ok(value: T) | Err(error: E)

  function Min(a: int, b: int): (r: int)
    ensures r <= a && r <= b && (r == a || r == b)
  {
    if a < b then a else b
  }

  /** `toLowerCase` on the ASCII text the repository compares: addresses, hashes, labels. */
  function LowerChar(c: char): char {
    if 'A' <= c <= 'Z' then (c as int + 32) as char else c
  }

  function Lower(s: string): (r: string)
    ensures |r| == |s|
    ensures forall i :: 0 <= i < |s| ==> r[i] == LowerChar(s[i])
  {
    seq(|s|, i requires 0 <= i < |s| => LowerChar(s[i]))
  }

  /** Two texts the repository treats as the same address, hash or label. */
  predicate SameText(a: string, b: string) {
    Lower(a) == Lower(b)
  }

  lemma LowerIsIdempotent(s: string)
    ensures Lower(Lower(s)) == Lower(s)
  {
    forall i | 0 <= i < |s| ensures Lower(Lower(s))[i] == Lower(s)[i] {
      assert Lower(Lower(s))[i] == LowerChar(LowerChar(s[i]));
    }
  }

  /** The elements of `s` that satisfy `keep`, in order. */
  function Filter<T(!new)>(s: seq<T>, keep: T -> bool): (r: seq<T>)
    ensures forall x :: x in r <==> x in s && keep(x)
    ensures |r| <= |s|
  {
    if s == [] then []
    else
      assert s == [s[0]] + s[1..];
      (if keep(s[0]) then [s[0]] else []) + Filter(s[1..], keep)
  }

  lemma {:induction false} FilterAppend<T(!new)>(a: seq<T>, b: seq<T>, keep: T -> bool)
    ensures Filter(a + b, keep) == Filter(a, keep) + Filter(b, keep)
  {
    if a == [] {
      assert a + b == b;
    } else {
      assert (a + b)[1..] == a[1..] + b;
      FilterAppend(a[1..], b, keep);
    }
  }

  lemma {:induction false} FilterCongruence<T(!new)>(s: seq<T>, keep: T -> bool, also: T -> bool)
    requires forall x :: x in s ==> keep(x) == also(x)
    ensures Filter(s, keep) == Filter(s, also)
  {
    if s != [] {
      assert s == [s[0]] + s[1..];
      FilterCongruence(s[1..], keep, also);
    }
  }

  lemma {:induction false} FilterTwice<T(!new)>(s: seq<T>, f: T -> bool, g: T -> bool, both: T -> bool)
    requires forall x :: x in s ==> (both(x) <==> f(x) && g(x))
    ensures Filter(Filter(s, f), g) == Filter(s, both)
  {
    if s != [] {
      assert s == [s[0]] + s[1..];
      FilterTwice(s[1..], f, g, both);
      FilterAppend(if f(s[0]) then [s[0]] else [], Filter(s[1..], f), g);
      assert Filter([s[0]], g) == if g(s[0]) then [s[0]] else [] by {
        assert [s[0]][1..] == [];
      }
    }
  }

  lemma {:induction false} FilterFewer<T(!new)>(s: seq<T>, f: T -> bool, g: T -> bool)
    requires forall x :: x in s && f(x) ==> g(x)
    ensures |Filter(s, f)| <= |Filter(s, g)|
  {
    if s != [] {
      assert s == [s[0]] + s[1..];
      FilterFewer(s[1..], f, g);
    }
  }

  lemma FilterOne<T(!new)>(x: T, keep: T -> bool)
    ensures Filter([x], keep) == if keep(x) then [x] else []
  {
    assert [x][1..] == [];
  }

  /** The only place where `keep` holds. */
  predicate IsOnly<T(!new)>(s: seq<T>, keep: T -> bool, i: int) {
    0 <= i < |s| && keep(s[i]) && forall j :: 0 <= j < |s| && keep(s[j]) ==> j == i
  }

  /** One element is kept exactly when `keep` holds in one place, and it is the one there. */
  lemma {:induction false} FilterSingle<T(!new)>(s: seq<T>, keep: T -> bool)
    ensures |Filter(s, keep)| == 0 <==> forall i :: 0 <= i < |s| ==> !keep(s[i])
    ensures |Filter(s, keep)| == 1 <==> exists i :: IsOnly(s, keep, i)
    ensures forall i :: IsOnly(s, keep, i) ==> Filter(s, keep) == [s[i]]
  {
    if s != [] {
      var head, rest := s[0], s[1..];
      FilterSingle(rest, keep);
      assert Filter(s, keep) == (if keep(head) then [head] else []) + Filter(rest, keep);
      hide Filter;
      assert forall i :: 0 <= i < |rest| ==> rest[i] == s[i + 1];
      assert forall i :: 1 <= i < |s| ==> s[i] == rest[i - 1];
      if keep(head) {
        assert forall i :: IsOnly(s, keep, i) ==> i == 0;
        if |Filter(rest, keep)| == 0 {
          assert IsOnly(s, keep, 0);
        }
      } else {
        assert forall i :: IsOnly(rest, keep, i) ==> IsOnly(s, keep, i + 1);
        assert forall i :: IsOnly(s, keep, i) ==> IsOnly(rest, keep, i - 1);
      }
    }
  }
}
