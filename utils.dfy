/** The in-place Fisher–Yates shuffle of renderer/helpers/utils.ts. */
module Utils {
  import opened RandomIndex

  /** The swap partner `Math.floor(Math.random() * (i + 1))` for position `i`. */
  function PartnerIndex(r: real, i: nat): (j: nat)
    requires 0.0 <= r < 1.0
    ensures j <= i
  {
    ScaledFloor(r, i + 1)
  }

  /** `[s[i], s[j]] = [s[j], s[i]]` on a sequence. */
  function Swap<T>(s: seq<T>, i: nat, j: nat): (r: seq<T>)
    requires i < |s| && j < |s|
    ensures |r| == |s| && r[i] == s[j] && r[j] == s[i]
    ensures forall k :: 0 <= k < |s| && k != i && k != j ==> r[k] == s[k]
  {
    seq(|s|, k requires 0 <= k < |s| => if k == i then s[j] else if k == j then s[i] else s[k])
  }

  lemma SwapPermutes<T>(s: seq<T>, i: nat, j: nat)
    requires i < |s| && j < |s|
    ensures multiset(Swap(s, i, j)) == multiset(s)
  {
    assert Swap(s, i, j) == s[i := s[j]][j := s[i]];
  }

  /** Every draw of Math.random() lies in [0, 1); nothing is assumed about their distribution. */
  ghost predicate InUnitInterval(random: nat -> real) {
    forall k :: 0.0 <= random(k) < 1.0
  }

  /**
   * The loop from position `i` down to 1, where `random(k)` is the value of the k-th
   * call of Math.random() and `k` calls have already been made.
   */
  function ShuffleFrom<T>(s: seq<T>, i: int, random: nat -> real, k: nat): (r: seq<T>)
    requires InUnitInterval(random) && i < |s|
    ensures |r| == |s|
    decreases i
  {
    if i <= 0 then s
    else ShuffleFrom(Swap(s, i, PartnerIndex(random(k), i)), i - 1, random, k + 1)
  }

  /** What shuffleArray leaves in an array that held `s`. */
  function Shuffled<T>(s: seq<T>, random: nat -> real): (r: seq<T>)
    requires InUnitInterval(random)
  {
    ShuffleFrom(s, |s| - 1, random, 0)
  }

  lemma {:induction false} ShuffleFromIsPermutation<T>(s: seq<T>, i: int, random: nat -> real, k: nat)
    requires InUnitInterval(random) && i < |s|
    ensures multiset(ShuffleFrom(s, i, random, k)) == multiset(s)
    decreases i
  {
    if i > 0 {
      var j := PartnerIndex(random(k), i);
      var t := Swap(s, i, j);
      assert ShuffleFrom(s, i, random, k) == ShuffleFrom(t, i - 1, random, k + 1);
      ShuffleFromIsPermutation(t, i - 1, random, k + 1);
      SwapPermutes(s, i, j);
    } else {
      assert ShuffleFrom(s, i, random, k) == s;
    }
  }

  /** Whatever Math.random() returns, the shuffle only rearranges: same length, same multiset. */
  lemma ShuffledIsPermutation<T>(s: seq<T>, random: nat -> real)
    requires InUnitInterval(random)
    ensures |Shuffled(s, random)| == |s|
    ensures multiset(Shuffled(s, random)) == multiset(s)
  {
    ShuffleFromIsPermutation(s, |s| - 1, random, 0);
  }

  /** The loop runs only while i > 0, so arrays of length 0 or 1 come back untouched. */
  lemma ShortArrayUnchanged<T>(s: seq<T>, random: nat -> real)
    requires InUnitInterval(random) && |s| <= 1
    ensures Shuffled(s, random) == s
  {
  }

  method SwapElements<T>(a: array<T>, i: nat, j: nat)
    requires i < a.Length && j < a.Length
    modifies a
    ensures a[..] == Swap(old(a[..]), i, j)
  {
    a[i], a[j] := a[j], a[i];
  }

  /** One iteration of the loop: swap position `i` with its partner, then go on from `i - 1`. */
  lemma ShuffleStep<T>(s: seq<T>, i: int, random: nat -> real, k: nat)
    requires InUnitInterval(random) && 0 < i < |s|
    ensures ShuffleFrom(s, i, random, k) == ShuffleFrom(Swap(s, i, PartnerIndex(random(k), i)), i - 1, random, k + 1)
  {
  }

  /** `shuffleArray(array)`: shuffles in place and returns the array it was given. */
  method ShuffleArray<T>(a: array<T>, random: nat -> real) returns (r: array<T>)
    requires InUnitInterval(random)
    modifies a
    ensures r == a
    ensures a[..] == Shuffled(old(a[..]), random)
    ensures multiset(a[..]) == multiset(old(a[..]))
  {
    ghost var s0 := a[..];
    var i := a.Length - 1;
    var calls: nat := 0;
    while i > 0
      invariant -1 <= i < a.Length
      invariant ShuffleFrom(a[..], i, random, calls) == Shuffled(s0, random)
    {
      var j := PartnerIndex(random(calls), i);
      ShuffleStep(a[..], i, random, calls);
      SwapElements(a, i, j);
      i := i - 1;
      calls := calls + 1;
    }
    r := a;
    ShuffledIsPermutation(s0, random);
  }
}
