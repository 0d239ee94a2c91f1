/** Sequence helpers used to read call traces. */
module Seqs {
  import opened Wrappers

  /** The elements of `s` that `f` selects, in their original order, each mapped by `f`. */
  function Keep<T, U>(s: seq<T>, f: T -> Option<U>): (r: seq<U>)
    ensures |r| <= |s|
    ensures forall x :: x in s && f(x).Some? ==> f(x).value in r
  {
    if s == [] then []
    else (if f(s[0]).Some? then [f(s[0]).value] else []) + Keep(s[1..], f)
  }

  /** Keeping distributes over concatenation: a trace read in two parts reads the same. */
  lemma {:induction false} KeepAppend<T, U>(a: seq<T>, b: seq<T>, f: T -> Option<U>)
    ensures Keep(a + b, f) == Keep(a, f) + Keep(b, f)
  {
    if a == [] {
      assert a + b == b;
    } else {
      assert (a + b)[0] == a[0];
      assert (a + b)[1..] == a[1..] + b;
      KeepAppend(a[1..], b, f);
    }
  }

  /** Nothing is kept from a sequence whose elements `f` all rejects. */
  lemma {:induction false} KeepNone<T, U>(s: seq<T>, f: T -> Option<U>)
    requires forall x :: x in s ==> f(x).None?
    ensures Keep(s, f) == []
  {
    if s != [] {
      KeepNone(s[1..], f);
    }
  }

  /** Everything is kept, unchanged, from a sequence whose elements `f` all selects as they are. */
  lemma {:induction false} KeepAll<T>(s: seq<T>, f: T -> Option<T>)
    requires forall x :: x in s ==> f(x) == Some(x)
    ensures Keep(s, f) == s
  {
    if s != [] {
      KeepAll(s[1..], f);
    }
  }
}
