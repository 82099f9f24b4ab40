/** Optional values, results, and the one sequence helper several components share. */
module Prelude {

  datatype Option<+T> = None | Some(value: T) {
    function GetOr(default: T): T {
      if Some? then value else default
    }
  }

  datatype Result<+T, +E> = Ok(value: T) | Err(error: E)

  type byte = b: int | 0 <= b < 256

  /** Go's uint64, with the wrap-around its + operator has. */
  const MAX_U64: nat := 0xFFFF_FFFF_FFFF_FFFF

  type uint64 = n: nat | n <= MAX_U64

  function WrapAdd(a: uint64, b: uint64): (r: uint64)
    ensures r == a + b || r == a + b - 0x1_0000_0000_0000_0000
  {
    (a + b) % 0x1_0000_0000_0000_0000
  }

  /** The elements of s without repetitions, each at its first occurrence. */
  function FirstSeen<T(==)>(s: seq<T>): seq<T> {
    if s == [] then []
    else
      var init := FirstSeen(s[..|s| - 1]);
      if s[|s| - 1] in init then init else init + [s[|s| - 1]]
  }

  ghost predicate Distinct<T>(s: seq<T>) {
    forall i, j :: 0 <= i < j < |s| ==> s[i] != s[j]
  }

  lemma {:induction false} FirstSeenHasSameElements<T>(s: seq<T>)
    ensures Distinct(FirstSeen(s))
    ensures forall x :: x in FirstSeen(s) <==> x in s
  {
    if s != [] {
      FirstSeenHasSameElements(s[..|s| - 1]);
      assert s == s[..|s| - 1] + [s[|s| - 1]];
    }
  }

  /** The i-th element kept stands at its first occurrence, and what precedes it there keeps the first i. */
  lemma {:induction false} FirstSeenKeepsOrder<T>(s: seq<T>, i: nat) returns (p: nat)
    requires i < |FirstSeen(s)|
    ensures p < |s| && s[p] == FirstSeen(s)[i] && s[p] !in s[..p]
    ensures FirstSeen(s[..p]) == FirstSeen(s)[..i]
  {
    var init := s[..|s| - 1];
    FirstSeenHasSameElements(init);
    if i < |FirstSeen(init)| {
      p := FirstSeenKeepsOrder(init, i);
      assert init[..p] == s[..p];
    } else {
      p := |s| - 1;
      assert s[..p] == init;
    }
  }

  lemma {:induction false} FirstSeenOfDistinct<T>(s: seq<T>)
    requires Distinct(s)
    ensures FirstSeen(s) == s
  {
    if s != [] {
      FirstSeenOfDistinct(s[..|s| - 1]);
      assert s == s[..|s| - 1] + [s[|s| - 1]];
    }
  }
}
