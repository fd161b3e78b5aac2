/** Small value types and string/sequence helpers shared by the other modules. */
module Common {

  datatype Option<T> = None | Some(value: T)

  /** Python's `s.startswith(p)`. */
  predicate StartsWith(s: string, p: string) {
    |p| <= |s| && s[..|p|] == p
  }

  /** Python's `sub in s` on strings: `sub` occurs somewhere in `s`. */
  predicate Contains(s: string, sub: string)
    decreases |s|
  {
    StartsWith(s, sub) || (|s| > 0 && Contains(s[1..], sub))
  }

  /** The elements of `s`, last first. */
  function Reverse<T>(s: seq<T>): (r: seq<T>)
    ensures |r| == |s|
  {
    if s == [] then [] else [s[|s| - 1]] + Reverse(s[..|s| - 1])
  }

  lemma {:induction false} ReversePrepend<T>(a: T, s: seq<T>)
    ensures Reverse([a] + s) == Reverse(s) + [a]
    decreases |s|
  {
    if s == [] {
      assert [a] + s == [a];
    } else {
      var n := |s|;
      assert ([a] + s)[..n] == [a] + s[..n - 1];
      assert ([a] + s)[n] == s[n - 1];
      ReversePrepend(a, s[..n - 1]);
    }
  }

  /** Taking the last element of `s` is taking the head of its reverse. */
  lemma ReverseLast<T>(s: seq<T>)
    requires s != []
    ensures Reverse(s)[0] == s[|s| - 1]
    ensures Reverse(s)[1..] == Reverse(s[..|s| - 1])
  {
  }
}
