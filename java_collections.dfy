/**
 * java.util.Collections.shuffle, as the schedulers apply it to the sub-list
 * of upcoming entries. The random source is a parameter: `draws` supplies the successive results of
 * Random.nextInt, reduced into range, and missing draws read as 0.
 */
module JavaCollections {

  /** Exchanging two positions keeps the same elements. */
  lemma SwapKeepsElements<T>(t: seq<T>, a: nat, b: nat)
    requires a < |t| && b < |t|
    ensures multiset(t[a := t[b]][b := t[a]]) == multiset(t)
  {
  }

  /** The three runs of a + b + c are sliced back out at their offsets. */
  lemma ConcatSlices<T>(a: seq<T>, b: seq<T>, c: seq<T>)
    ensures var s := a + b + c;
      && s[..|a|] == a && s[|a|..|a| + |b|] == b && s[|a| + |b|..] == c
  {
  }

  /** A prefix one longer is the prefix followed by the next element. */
  lemma PrefixGrows<T>(s: seq<T>, i: nat)
    requires i < |s|
    ensures s[..i + 1] == s[..i] + [s[i]]
  {
  }

  /**
   * Collections.shuffle(list): for i from the list's size down to 2 it swaps
   * positions i-1 and nextInt(i). The result is a permutation of the list.
   */
  method Shuffle<T>(list: seq<T>, draws: seq<nat>) returns (r: seq<T>)
    ensures |r| == |list|
    ensures multiset(r) == multiset(list)
  {
    r := list;
    var i := |r|;
    var step := 0;
    while i > 1
      invariant 0 <= i <= |r| == |list|
      invariant multiset(r) == multiset(list)
    {
      var j := (if step < |draws| then draws[step] else 0) % i;
      SwapKeepsElements(r, i - 1, j);
      r := r[i - 1 := r[j]][j := r[i - 1]];
      i := i - 1;
      step := step + 1;
    }
  }
}
