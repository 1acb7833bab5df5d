/** Small vocabulary shared by every component of the model. */
module Prelude {

  datatype Option<+T> = None | Some(value: T)

  datatype Result<+T, +E> = Ok(value: T) | Err(error: E)

  /** The characters Go's strings.TrimSpace removes, restricted to Latin-1. */
  predicate IsSpace(c: char)
  {
    c in {' ', '\t', '\n', '\r', '\U{B}', '\U{C}', '\U{85}', '\U{A0}'}
  }

  /** Go's `strings.TrimSpace(s) == ""`. */
  predicate Blank(s: string)
  {
    forall i :: 0 <= i < |s| ==> IsSpace(s[i])
  }

  /** Go's `strings.TrimSpace(s)`. */
  function Trim(s: string): string
  {
    if s != [] && IsSpace(s[0]) then Trim(s[1..])
    else if s != [] && IsSpace(s[|s| - 1]) then Trim(s[..|s| - 1])
    else s
  }

  ghost predicate AllDifferent<T>(s: seq<T>)
  {
    forall i, j :: 0 <= i < j < |s| ==> s[i] != s[j]
  }

  /** Splitting off the last element of a sequence without repetition. */
  lemma SplitLast<T>(s: seq<T>)
    requires s != [] && AllDifferent(s)
    ensures s == s[..|s| - 1] + [s[|s| - 1]]
    ensures s[|s| - 1] !in s[..|s| - 1] && AllDifferent(s[..|s| - 1])
  {
  }

  /** `order` visits every key once: what ranging over a Go map does, in an order of its own choice. */
  ghost predicate Visits<K(!new)>(order: seq<K>, keys: set<K>)
  {
    && AllDifferent(order)
    && (forall k :: k in keys <==> k in order)
  }

  lemma {:induction false} SizeOfSubset<T>(a: set<T>, b: set<T>)
    requires a <= b
    ensures |a| <= |b|
    ensures |a| == |b| <==> a == b
    decreases a
  {
    if a != {} {
      var x :| x in a;
      SizeOfSubset(a - {x}, b - {x});
    }
  }
}
