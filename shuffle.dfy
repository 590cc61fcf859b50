/**
 * `shuffleDeck`: the in-place Fisher-Yates shuffle of the deck array. The
 * random index `Math.floor(Math.random() * currentIndex)` is modelled as an
 * arbitrary choice in `[0, currentIndex)`; the choices made are returned as a
 * ghost record so that the result can be tied to them.
 */
module Shuffle {
  import opened Cards

  /** `s` with the elements at `i` and `j` exchanged. */
  function Swap(s: seq<Card>, i: nat, j: nat): seq<Card>
    requires i < |s| && j < |s|
  {
    s[i := s[j]][j := s[i]]
  }

  /**
   * The picks of the first `|steps|` shuffle steps are in range: at step `k`,
   * `currentIndex` is `n - k` before the decrement, so the chosen index is below it.
   */
  predicate ValidSteps(steps: seq<nat>, n: nat)
  {
    |steps| <= n && forall k :: 0 <= k < |steps| ==> steps[k] < n - k
  }

  /**
   * The deck after the steps `steps` of the shuffle loop: step `k` swaps the
   * element at `|s| - 1 - k` (the decremented `currentIndex`) with `steps[k]`.
   */
  function Run(s: seq<Card>, steps: seq<nat>): (r: seq<Card>)
    requires ValidSteps(steps, |s|)
    ensures |r| == |s|
  {
    if steps == [] then s
    else
      var k := |steps| - 1;
      assert ValidSteps(steps[..k], |s|) by {
        forall m | 0 <= m < k ensures steps[..k][m] < |s| - m {
          assert steps[..k][m] == steps[m];
        }
      }
      Swap(Run(s, steps[..k]), |s| - 1 - k, steps[k])
  }

  lemma SwapPermutes(s: seq<Card>, i: nat, j: nat)
    requires i < |s| && j < |s|
    ensures multiset(Swap(s, i, j)) == multiset(s)
  {
    var t := s[i := s[j]];
    assert multiset(t) == multiset(s) - multiset{s[i]} + multiset{s[j]};
    assert multiset(t[j := s[i]]) == multiset(t) - multiset{t[j]} + multiset{s[i]};
  }

  /** Whatever indices are picked, the shuffle only permutes the deck. */
  lemma {:induction false} RunPermutes(s: seq<Card>, steps: seq<nat>)
    requires ValidSteps(steps, |s|)
    ensures multiset(Run(s, steps)) == multiset(s)
  {
    if steps != [] {
      var k := |steps| - 1;
      assert ValidSteps(steps[..k], |s|) by {
        forall m | 0 <= m < k ensures steps[..k][m] < |s| - m {
          assert steps[..k][m] == steps[m];
        }
      }
      RunPermutes(s, steps[..k]);
      SwapPermutes(Run(s, steps[..k]), |s| - 1 - k, steps[k]);
    }
  }

  /**
   * `shuffleDeck`: while `currentIndex != 0`, pick an index below it, decrement
   * it, and swap the two elements. The array is shuffled in place.
   */
  method ShuffleDeck(deck: array<Card>) returns (ghost steps: seq<nat>)
    modifies deck
    ensures |steps| == deck.Length && ValidSteps(steps, deck.Length)
    ensures deck[..] == Run(old(deck[..]), steps)
    ensures multiset(deck[..]) == multiset(old(deck[..]))
  {
    var currentIndex := deck.Length;
    steps := [];
    while currentIndex != 0
      invariant 0 <= currentIndex <= deck.Length
      invariant |steps| == deck.Length - currentIndex
      invariant ValidSteps(steps, deck.Length)
      invariant deck[..] == Run(old(deck[..]), steps)
    {
      var randomIndex :| 0 <= randomIndex < currentIndex;
      currentIndex := currentIndex - 1;
      ghost var before := deck[..];
      deck[currentIndex], deck[randomIndex] := deck[randomIndex], deck[currentIndex];
      assert deck[..] == Swap(before, currentIndex, randomIndex);
      ghost var done := steps;
      steps := steps + [randomIndex];
      assert steps[..|steps| - 1] == done;
    }
    RunPermutes(old(deck[..]), steps);
  }
}
