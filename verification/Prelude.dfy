/** Shared datatypes and small facts about sequences used by every other module. */
module Prelude {

  datatype Option<+T> = None | Some(value: T)

  /** A string of the program: an identifier or a message, compared but not taken apart. */
  datatype Text = Text(chars: string)

  const EMPTY := Text("")

  /** A point in time, in nanoseconds. */
  type Time = int

  /** The sequence without the element at position i. */
  function RemoveAt<T>(s: seq<T>, i: nat): (r: seq<T>)
    requires i < |s|
    ensures |r| == |s| - 1
    ensures forall j :: 0 <= j < |r| ==> r[j] == if j < i then s[j] else s[j + 1]
  {
    s[..i] + s[i + 1..]
  }

  /** sub is what is left of s after deleting some of its elements. */
  predicate IsSubsequence<T(==)>(sub: seq<T>, s: seq<T>)
  {
    || sub == []
    || (s != [] && Last(sub) == Last(s) && IsSubsequence(Front(sub), Front(s)))
    || (s != [] && IsSubsequence(sub, Front(s)))
  }

  lemma SubsequenceSnoc<T>(sub: seq<T>, s: seq<T>, x: T)
    requires IsSubsequence(sub, s)
    ensures IsSubsequence(sub, s + [x]) && IsSubsequence(sub + [x], s + [x])
  {
    assert Front(sub + [x]) == sub && Front(s + [x]) == s;
  }

  lemma {:induction false} SubsequenceFront<T>(sub: seq<T>, s: seq<T>)
    requires sub != [] && IsSubsequence(sub, s)
    ensures IsSubsequence(Front(sub), s)
  {
    assert s == Front(s) + [Last(s)];
    if IsSubsequence(sub, Front(s)) {
      SubsequenceFront(sub, Front(s));
    }
    SubsequenceSnoc(Front(sub), Front(s), Last(s));
  }

  function Last<T>(s: seq<T>): T
    requires s != []
  {
    s[|s| - 1]
  }

  function Front<T>(s: seq<T>): (r: seq<T>)
    requires s != []
    ensures |r| == |s| - 1
  {
    s[..|s| - 1]
  }
}
