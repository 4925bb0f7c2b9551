/** Shared vocabulary: optional values, the exceptions the program throws,
    and a few facts about sequences used as insertion-ordered sets. */
module Base {

  datatype Option<+T> = None | Some(value: T)

  /** The JavaScript error classes thrown by the modelled code. */
  datatype ErrorKind = TypeError | PlainError | ErrorResponseError

  datatype Error = Error(kind: ErrorKind, message: string)

  /** The outcome of a call that either returns a value or throws. */
  datatype Result<+T> = Ok(value: T) | Throw(error: Error)

  /** A call that returns nothing or throws. */
  datatype Outcome = Done | Raise(error: Error)

  /** No element occurs twice: a sequence standing for a JavaScript Set
      (whose iteration order is its insertion order). */
  predicate Distinct<T(==)>(s: seq<T>) {
    forall i, j :: 0 <= i < j < |s| ==> s[i] != s[j]
  }

  /** `s` with every occurrence of `x` removed, the rest in order. */
  function Without<T(==)>(s: seq<T>, x: T): (r: seq<T>)
    ensures forall i :: 0 <= i < |r| ==> r[i] in s && r[i] != x
    ensures forall i :: 0 <= i < |s| && s[i] != x ==> s[i] in r
    ensures |r| <= |s|
    ensures x !in s ==> r == s
    ensures Distinct(s) ==> Distinct(r)
  {
    if s == [] then []
    else if s[0] == x then Without(s[1..], x)
    else [s[0]] + Without(s[1..], x)
  }

  lemma {:induction false} WithoutDistinctLength<T>(s: seq<T>, x: T)
    requires Distinct(s) && x in s
    ensures |Without(s, x)| == |s| - 1
  {
    if s[0] != x {
      WithoutDistinctLength(s[1..], x);
    } else {
      assert x !in s[1..];
    }
  }

  /** `set.add(x)` on a Set held as a sequence: `x` goes last if absent. */
  function Inserted<T(==)>(s: seq<T>, x: T): (r: seq<T>)
    ensures x in r
    ensures forall i :: 0 <= i < |s| ==> s[i] in r
    ensures forall i :: 0 <= i < |r| ==> r[i] in s || r[i] == x
    ensures x in s ==> r == s
    ensures x !in s ==> |r| == |s| + 1
    ensures Distinct(s) ==> Distinct(r)
  {
    if x in s then s else s + [x]
  }

  /** Removing the element just appended gives the sequence back. */
  lemma {:induction false} WithoutAppend<T>(s: seq<T>, x: T)
    requires x !in s
    ensures Without(s + [x], x) == s
  {
    if s != [] {
      assert (s + [x])[1..] == s[1..] + [x];
      WithoutAppend(s[1..], x);
    }
  }

  /** The reversed sequence. */
  function Reverse<T>(s: seq<T>): (r: seq<T>)
    ensures |r| == |s|
  {
    if s == [] then [] else Reverse(s[1..]) + [s[0]]
  }

  lemma {:induction false} ReverseAt<T>(s: seq<T>, k: nat)
    requires k < |s|
    ensures Reverse(s)[k] == s[|s| - 1 - k]
  {
    if k < |s| - 1 {
      ReverseAt(s[1..], k);
    }
  }
}
