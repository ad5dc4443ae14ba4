/** The option and result types the modules share. */
module Prelude {
  newtype Byte = b: int | 0 <= b < 256

  datatype Option<+T> = None | Some(value: T)

  /** A normal return, or the exception that took its place. */
  datatype Result<+T, +E> = Ok(value: T) | Raise(error: E)

  /** Rounding up. */
  function Ceiling(x: real): (c: int)
    ensures x <= c as real < x + 1.0
  {
    -((-x).Floor)
  }

  ghost predicate Distinct<T(!new)>(s: seq<T>) {
    forall i, j :: 0 <= i < j < |s| ==> s[i] != s[j]
  }

  function Elements<T>(s: seq<T>): set<T> {
    set x | x in s
  }

  /** Counting a sequence against its set, as the source does, finds every repetition and only those. */
  lemma {:induction false} CountFindsRepetition<T(!new)>(s: seq<T>)
    ensures |Elements(s)| <= |s|
    ensures |Elements(s)| == |s| <==> Distinct(s)
  {
    if s != [] {
      var init, last := s[..|s| - 1], s[|s| - 1];
      CountFindsRepetition(init);
      assert Elements(s) == Elements(init) + {last};
      assert Distinct(s) <==> Distinct(init) && last !in init;
    }
  }
}
