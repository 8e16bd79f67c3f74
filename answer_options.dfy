/**
 * Answer-option synthesis for a round: the correct value plus distinct
 * random wrong answers drawn from 0..14 until there are four, then a
 * shuffle. The random draws are supplied as sequences.
 */
module AnswerOptions {

  const OptionCount: nat := 4
  /** The bound passed to Random.nextInt for a wrong answer: draws lie in 0..14. */
  const DrawBound: int := 15

  predicate Distinct(s: seq<int>) {
    forall i, j :: 0 <= i < j < |s| ==> s[i] != s[j]
  }

  predicate InDrawRange(d: int) {
    0 <= d < DrawBound
  }

  /**
   * The list the collection loop holds once it has consumed `draws`,
   * starting from `opts`: a draw already in the list is skipped, and the
   * loop stops at four entries.
   */
  function Collect(opts: seq<int>, draws: seq<int>): (r: seq<int>)
    ensures opts <= r
    ensures |r| <= (if |opts| < OptionCount then OptionCount else |opts|)
    ensures forall x :: x in r ==> x in opts || x in draws
    decreases |draws|
  {
    if |opts| >= OptionCount || draws == [] then opts
    else if draws[0] in opts then Collect(opts, draws[1..])
    else Collect(opts + [draws[0]], draws[1..])
  }

  /**
   * The collected list starts with the starting list, gains only draws not
   * already present, stays distinct and never exceeds four entries.
   */
  lemma {:induction false} CollectShape(opts: seq<int>, draws: seq<int>)
    requires Distinct(opts) && |opts| <= OptionCount
    ensures var r := Collect(opts, draws);
            && |opts| <= |r| <= OptionCount
            && r[..|opts|] == opts
            && Distinct(r)
            && forall i :: |opts| <= i < |r| ==> r[i] in draws
    decreases |draws|
  {
    if |opts| < OptionCount && draws != [] {
      if draws[0] in opts {
        CollectShape(opts, draws[1..]);
      } else {
        CollectShape(opts + [draws[0]], draws[1..]);
        var r := Collect(opts, draws);
        assert r[..|opts| + 1][..|opts|] == r[..|opts|];
      }
    }
  }

  /** Every draw ends up collected unless the list filled up first. */
  lemma {:induction false} CollectKeeps(opts: seq<int>, draws: seq<int>, x: int)
    requires Distinct(opts) && |opts| <= OptionCount
    requires x in opts || x in draws
    ensures x in Collect(opts, draws) || |Collect(opts, draws)| == OptionCount
    decreases |draws|
  {
    CollectShape(opts, draws);
    var r := Collect(opts, draws);
    if x in opts {
      var i :| 0 <= i < |opts| && opts[i] == x;
      assert r[..|opts|][i] == x;
    } else if |opts| < OptionCount {
      if draws[0] == x {
        CollectKeeps(opts + [x], draws[1..], x);
      } else {
        assert x in draws[1..];
        if draws[0] in opts {
          CollectKeeps(opts, draws[1..], x);
        } else {
          CollectShape(opts + [draws[0]], draws[1..]);
          CollectKeeps(opts + [draws[0]], draws[1..], x);
        }
      }
    }
  }

  /**
   * The collection loop reaches four entries as soon as the draws hold three
   * distinct values other than the correct one.
   */
  lemma CollectReachesFour(correct: int, draws: seq<int>, a: int, b: int, c: int)
    requires a in draws && b in draws && c in draws
    requires a != b && b != c && a != c
    requires correct != a && correct != b && correct != c
    ensures |Collect([correct], draws)| == OptionCount
  {
    var r := Collect([correct], draws);
    CollectShape([correct], draws);
    CollectKeeps([correct], draws, correct);
    CollectKeeps([correct], draws, a);
    CollectKeeps([correct], draws, b);
    CollectKeeps([correct], draws, c);
  }

  /**
   * Draws for Collections.shuffle on a list of n elements: for i = n down
   * to 2 it swaps element i - 1 with element j, j = Random.nextInt(i); the
   * draw for that step is swaps[n - i].
   */
  predicate ShuffleDraws(swaps: seq<int>, n: nat) {
    && |swaps| == (if n == 0 then 0 else n - 1)
    && forall k :: 0 <= k < |swaps| ==> 0 <= swaps[k] < n - k
  }

  /** Collections.shuffle: only reorders the list. */
  method Shuffle(s: seq<int>, swaps: seq<int>) returns (r: seq<int>)
    requires ShuffleDraws(swaps, |s|)
    ensures |r| == |s|
    ensures multiset(r) == multiset(s)
  {
    r := s;
    var i := |s|;
    while i > 1
      invariant 0 <= i <= |s|
      invariant |r| == |s|
      invariant multiset(r) == multiset(s)
    {
      var j := swaps[|s| - i];
      r := r[i - 1 := r[j]][j := r[i - 1]];
      i := i - 1;
    }
  }

  /**
   * generateAnswerOptions: four distinct values, the correct value exactly
   * once, the other three drawn from 0..14, in the order the shuffle gives.
   * The draws must let the loop reach four entries; an unlucky random
   * source keeps Java drawing, and so needs a longer draw sequence here.
   */
  method GenerateAnswerOptions(correct: int, draws: seq<int>, swaps: seq<int>) returns (options: seq<int>)
    requires forall k :: 0 <= k < |draws| ==> InDrawRange(draws[k])
    requires |Collect([correct], draws)| == OptionCount
    requires ShuffleDraws(swaps, OptionCount)
    ensures |options| == OptionCount && Distinct(options)
    ensures multiset(options) == multiset(Collect([correct], draws))
    ensures multiset(options)[correct] == 1
    ensures forall i :: 0 <= i < |options| && options[i] != correct ==> InDrawRange(options[i]) && options[i] in draws
  {
    options := [correct];
    var i := 0;
    while |options| < OptionCount
      invariant 0 <= i <= |draws|
      invariant 1 <= |options| <= OptionCount
      invariant options[0] == correct && Distinct(options)
      invariant forall k :: 1 <= k < |options| ==> InDrawRange(options[k])
      invariant Collect(options, draws[i..]) == Collect([correct], draws)
      decreases |draws| - i
    {
      assert draws[i..] != [];
      var wrongAnswer := draws[i];
      assert draws[i..][1..] == draws[i + 1..];
      if wrongAnswer !in options {
        options := options + [wrongAnswer];
      }
      i := i + 1;
    }
    ghost var collected := options;
    CollectShape([correct], draws);
    assert multiset(collected)[correct] == 1 by {
      assert collected == [correct] + collected[1..];
      assert correct !in collected[1..];
    }
    options := Shuffle(options, swaps);
    forall i | 0 <= i < |options| && options[i] != correct
      ensures InDrawRange(options[i]) && options[i] in draws
    {
      assert options[i] in multiset(collected);
      var k :| 0 <= k < |collected| && collected[k] == options[i];
      assert k != 0;
    }
    forall i, j | 0 <= i < j < |options|
      ensures options[i] != options[j]
    {
      DistinctCount(collected, options[i]);
      assert options == options[..i] + [options[i]] + options[i + 1..j] + [options[j]] + options[j + 1..];
    }
  }

  /** In a distinct list, every value occurs at most once. */
  lemma {:induction false} DistinctCount(s: seq<int>, x: int)
    requires Distinct(s)
    ensures multiset(s)[x] <= 1
    decreases |s|
  {
    if s != [] {
      DistinctCount(s[1..], x);
      assert s == [s[0]] + s[1..];
      if s[0] == x {
        assert x !in s[1..];
      }
    }
  }
}
