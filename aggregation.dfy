/** The statistics archived for a finished round: the numeric reading of a
    vote value, the average of the positive readings, the extremes of all
    readings and the most common value. */
module Aggregation {
  import opened Wrappers
  import opened JsText
  import opened Schema

  // ---------------------------------------------------------------------
  // Numeric reading of a vote value

  /** The numeric reading of a T-shirt size, if `v` is one. */
  function TshirtSize(v: string): Option<real> {
    if v == "XS" then Some(1.0)
    else if v == "S" then Some(2.0)
    else if v == "M" then Some(3.0)
    else if v == "L" then Some(4.0)
    else if v == "XL" then Some(5.0)
    else if v == "XXL" then Some(6.0)
    else None
  }

  /** The number a vote value stands for: "?" is 0, a T-shirt size is its
      rank, anything else is read by `parseFloat`, and what does not parse
      is 0. */
  function ParseVoteValue(v: string): real {
    if v == "?" then 0.0
    else match TshirtSize(v)
      case Some(n) => n
      case None => ParseFloat(v).GetOr(0.0)
  }

  /** The unknown card and the T-shirt sizes read as their fixed numbers. */
  lemma ParseVoteValueOfSymbols()
    ensures ParseVoteValue("?") == 0.0
    ensures ParseVoteValue("XS") == 1.0 && ParseVoteValue("S") == 2.0 && ParseVoteValue("M") == 3.0
    ensures ParseVoteValue("L") == 4.0 && ParseVoteValue("XL") == 5.0 && ParseVoteValue("XXL") == 6.0
  {
  }

  /** A rendered integer reads as that integer. */
  lemma ParseVoteValueOfInt(i: int)
    ensures ParseVoteValue(IntToString(i)) == i as real
  {
    var s := IntToString(i);
    ParseFloatOfIntToString(i);
    if i >= 0 {
      assert IsDigit(s[0]);
    }
    assert s != "?" && TshirtSize(s) == None;
  }

  /** A value that does not start like a number reads as 0. */
  lemma ParseVoteValueOfWord(v: string)
    requires |v| > 0 && 'A' <= v[0] <= 'Z'
    requires TshirtSize(v) == None
    ensures ParseVoteValue(v) == 0.0
  {
    assert LeadingWhitespace(v) == 0 && v[0..] == v;
    assert LeadingDigits(v) == 0;
  }

  function Values(votes: seq<string>): (xs: seq<real>)
    ensures |xs| == |votes|
  {
    seq(|votes|, i requires 0 <= i < |votes| => ParseVoteValue(votes[i]))
  }

  // ---------------------------------------------------------------------
  // Sums, means and extremes

  /** The strictly positive elements of `xs`, in order. */
  function Positives(xs: seq<real>): (p: seq<real>)
    ensures |p| <= |xs|
    ensures forall x :: x in p <==> x in xs && x > 0.0
  {
    if |xs| == 0 then []
    else
      var rest := Positives(xs[1..]);
      assert forall x :: x in xs <==> x == xs[0] || x in xs[1..];
      if xs[0] > 0.0 then [xs[0]] + rest else rest
  }

  function Sum(xs: seq<real>): real {
    if |xs| == 0 then 0.0 else xs[0] + Sum(xs[1..])
  }

  /** The smallest element, as `Math.min(...xs)`. */
  function MinOf(xs: seq<real>): (m: real)
    requires |xs| > 0
    ensures m in xs
    ensures forall x :: x in xs ==> m <= x
  {
    if |xs| == 1 then xs[0]
    else
      var rest := MinOf(xs[1..]);
      assert forall x :: x in xs ==> x == xs[0] || x in xs[1..];
      if xs[0] <= rest then xs[0] else rest
  }

  /** The largest element, as `Math.max(...xs)`. */
  function MaxOf(xs: seq<real>): (m: real)
    requires |xs| > 0
    ensures m in xs
    ensures forall x :: x in xs ==> x <= m
  {
    if |xs| == 1 then xs[0]
    else
      var rest := MaxOf(xs[1..]);
      assert forall x :: x in xs ==> x == xs[0] || x in xs[1..];
      if xs[0] >= rest then xs[0] else rest
  }

  lemma {:induction false} SumBounds(xs: seq<real>, lo: real, hi: real)
    requires forall x :: x in xs ==> lo <= x <= hi
    ensures |xs| as real * lo <= Sum(xs) <= |xs| as real * hi
  {
    if |xs| > 0 {
      assert xs[0] in xs;
      assert forall x :: x in xs[1..] ==> x in xs;
      SumBounds(xs[1..], lo, hi);
    }
  }

  function Mean(xs: seq<real>): real
    requires |xs| > 0
  {
    Sum(xs) / |xs| as real
  }

  /** A mean lies between any lower and any upper bound of the elements. */
  lemma MeanBounds(xs: seq<real>, lo: real, hi: real)
    requires |xs| > 0
    requires forall x :: x in xs ==> lo <= x <= hi
    ensures lo <= Mean(xs) <= hi
  {
    SumBounds(xs, lo, hi);
    DivideBounds(Sum(xs), |xs| as real, lo, hi);
  }

  lemma DivideBounds(a: real, n: real, lo: real, hi: real)
    requires n > 0.0 && n * lo <= a <= n * hi
    ensures lo <= a / n <= hi
  {
    var q := a / n;
    assert a == n * q;
  }

  /** `calculateAverage`: the mean of the positive readings, or the text "0"
      when there is none; the mean then lies between the smallest and the
      largest positive reading, so it is positive. */
  function CalculateAverage(votes: seq<string>): (a: Average)
    ensures a == Zero <==> forall v :: v in votes ==> ParseVoteValue(v) <= 0.0
    ensures a.OneDecimal? ==>
              var p := Positives(Values(votes));
              |p| > 0 && 0.0 < MinOf(p) <= a.mean <= MaxOf(p)
  {
    var xs := Values(votes);
    var p := Positives(xs);
    assert forall v :: v in votes ==> ParseVoteValue(v) in xs by {
      forall v | v in votes ensures ParseVoteValue(v) in xs {
        var i :| 0 <= i < |votes| && votes[i] == v;
        assert xs[i] == ParseVoteValue(v);
      }
    }
    if |p| == 0 then Zero
    else
      MeanBounds(p, MinOf(p), MaxOf(p));
      assert p[0] in p;
      OneDecimal(Mean(p))
  }

  /** The unknown card does not pull the average down. */
  lemma AverageIgnoresUnknown()
    ensures CalculateAverage(["3", "5", "5", "?"]) == OneDecimal(13.0 / 3.0)
  {
    ParseVoteValueOfInt(3);
    ParseVoteValueOfInt(5);
    assert IntToString(3) == "3" && IntToString(5) == "5";
    var xs := Values(["3", "5", "5", "?"]);
    assert xs == [3.0, 5.0, 5.0, 0.0];
    assert Positives(xs[3..]) == [];
    assert Positives(xs) == [3.0, 5.0, 5.0];
    assert Sum([3.0, 5.0, 5.0]) == 13.0;
  }

  /** T-shirt sizes average by rank. */
  lemma AverageOfSizes()
    ensures CalculateAverage(["S", "M", "M"]) == OneDecimal(8.0 / 3.0)
  {
    var xs := Values(["S", "M", "M"]);
    assert xs == [2.0, 3.0, 3.0];
    assert Positives(xs) == [2.0, 3.0, 3.0];
    assert Sum([2.0, 3.0, 3.0]) == 8.0;
  }

  // ---------------------------------------------------------------------
  // The set-values filter

  /** `xs.filter(x => x).map(x => x!)` over nullable strings: the present,
      non-empty values, each as often as it occurs. */
  function Present(xs: seq<Option<string>>): (r: seq<string>)
    ensures |r| <= |xs|
    ensures "" !in r
    ensures forall s :: s != "" ==> multiset(r)[s] == multiset(xs)[Some(s)]
  {
    if |xs| == 0 then []
    else
      var rest := Present(xs[1..]);
      assert xs == [xs[0]] + xs[1..];
      if xs[0].Some? && xs[0].value != "" then [xs[0].value] + rest else rest
  }

  lemma PresentMembership(xs: seq<Option<string>>, s: string)
    ensures s in Present(xs) <==> s != "" && Some(s) in xs
  {
    var r := Present(xs);
    if s != "" {
      assert s in r <==> multiset(r)[s] > 0;
      assert Some(s) in xs <==> multiset(xs)[Some(s)] > 0;
    }
  }

  function StoryPointsOf(votes: seq<Vote>): (xs: seq<Option<string>>)
    ensures |xs| == |votes|
  {
    seq(|votes|, i requires 0 <= i < |votes| => votes[i].storyPoints)
  }

  function TimeEstimatesOf(votes: seq<Vote>): (xs: seq<Option<string>>)
    ensures |xs| == |votes|
  {
    seq(|votes|, i requires 0 <= i < |votes| => votes[i].timeEstimate)
  }

  /** The story point values cast in `votes`, empty ones left out. */
  function StoryPointVotes(votes: seq<Vote>): seq<string> {
    Present(StoryPointsOf(votes))
  }

  /** The time estimates cast in `votes`, empty ones left out. */
  function TimeVotes(votes: seq<Vote>): seq<string> {
    Present(TimeEstimatesOf(votes))
  }

  // ---------------------------------------------------------------------
  // The most common value

  function Count(s: seq<string>, x: string): nat {
    multiset(s)[x]
  }

  /** Position of the first occurrence of `x`. */
  function IndexOf(s: seq<string>, x: string): (i: nat)
    requires x in s
    ensures i < |s| && s[i] == x
    ensures forall j :: 0 <= j < i ==> s[j] != x
  {
    if s[0] == x then 0 else 1 + IndexOf(s[1..], x)
  }

  /** Whether key `a` is enumerated before key `b` by an object whose keys
      were first set in the order they first occur in `s`: array-index keys
      come first in ascending numeric order, the other keys follow in
      insertion order. */
  predicate KeyBefore(s: seq<string>, a: string, b: string)
    requires a in s && b in s
  {
    if IsArrayIndex(a) && IsArrayIndex(b) then DigitsValue(a) < DigitsValue(b)
    else if IsArrayIndex(a) then true
    else if IsArrayIndex(b) then false
    else IndexOf(s, a) < IndexOf(s, b)
  }

  lemma KeyBeforeTransitive(s: seq<string>, a: string, b: string, c: string)
    requires a in s && b in s && c in s
    requires KeyBefore(s, a, b) && KeyBefore(s, b, c)
    ensures KeyBefore(s, a, c)
  {
  }

  /** Enumeration order is total on distinct keys. */
  lemma KeyBeforeTotal(s: seq<string>, a: string, b: string)
    requires a in s && b in s && a != b
    ensures KeyBefore(s, a, b) != KeyBefore(s, b, a)
  {
    if IsArrayIndex(a) && IsArrayIndex(b) && DigitsValue(a) == DigitsValue(b) {
      ArrayIndexInjective(a, b);
    }
  }

  /** What `getMostCommon` returns: a value with the highest count, and of
      those the last one in key enumeration order (the reduce keeps the later
      entry on a tie). */
  predicate IsMostCommon(s: seq<string>, r: string) {
    && r in s
    && (forall x :: x in s ==> Count(s, x) <= Count(s, r))
    && (forall x :: x in s && Count(s, x) == Count(s, r) ==> !KeyBefore(s, r, x))
  }

  /** There is only one most common value. */
  lemma MostCommonUnique(s: seq<string>, r1: string, r2: string)
    requires IsMostCommon(s, r1) && IsMostCommon(s, r2)
    ensures r1 == r2
  {
    if r1 != r2 {
      KeyBeforeTotal(s, r1, r2);
      assert false;
    }
  }

  /** A value held by a strict majority is the most common one. */
  lemma MajorityIsMostCommon(s: seq<string>, r: string)
    requires r in s && 2 * Count(s, r) > |s|
    ensures IsMostCommon(s, r)
  {
    forall x | x in s && x != r ensures Count(s, x) < Count(s, r) {
      TwoCounts(s, x, r);
    }
  }

  lemma {:induction false} TwoCounts(s: seq<string>, x: string, r: string)
    requires x != r
    ensures Count(s, x) + Count(s, r) <= |s|
  {
    if |s| > 0 {
      TwoCounts(s[1..], x, r);
      assert s == [s[0]] + s[1..];
      assert multiset(s) == multiset{s[0]} + multiset(s[1..]);
    }
  }

  /** `getMostCommon`: counts each value, then keeps the entry with the
      highest count over the counts object's entries. */
  method GetMostCommon(votes: seq<string>) returns (r: string)
    requires |votes| > 0
    ensures IsMostCommon(votes, r)
  {
    var counts: map<string, nat> := map[];
    var keys: seq<string> := [];
    var i := 0;
    while i < |votes|
      invariant 0 <= i <= |votes|
      invariant forall k :: k in counts <==> k in votes[..i]
      invariant forall k :: k in keys <==> k in counts
      invariant forall k :: k in counts ==> counts[k] == Count(votes[..i], k)
    {
      var v := votes[i];
      assert votes[..i + 1] == votes[..i] + [v];
      if v in counts {
        counts := counts[v := counts[v] + 1];
      } else {
        counts := counts[v := 1];
        keys := keys + [v];
      }
      i := i + 1;
    }
    assert votes[..i] == votes;
    assert votes[0] in counts;
    r := keys[0];
    var j := 1;
    while j < |keys|
      invariant 1 <= j <= |keys|
      invariant r in votes
      invariant forall x :: x in keys[..j] ==> counts[x] <= counts[r]
      invariant forall x :: x in keys[..j] && counts[x] == counts[r] ==> !KeyBefore(votes, r, x)
    {
      var k := keys[j];
      assert keys[..j + 1] == keys[..j] + [k];
      if counts[k] > counts[r] || (counts[k] == counts[r] && KeyBefore(votes, r, k)) {
        forall x | x in keys[..j] && counts[x] == counts[k] ensures !KeyBefore(votes, k, x) {
          if KeyBefore(votes, k, x) {
            if counts[k] == counts[r] {
              KeyBeforeTransitive(votes, r, k, x);
            }
          }
        }
        KeyBeforeTotal(votes, r, k);
        r := k;
      } else if counts[k] == counts[r] {
        if r != k {
          KeyBeforeTotal(votes, r, k);
        }
      }
      j := j + 1;
    }
    assert keys[..j] == keys;
  }

  lemma MostCommonExamples()
    ensures IsMostCommon(["5", "3", "5"], "5")
    ensures IsMostCommon(["13", "3"], "13")
    ensures IsMostCommon(["?", "3"], "?")
  {
    MajorityExample();
    IndexTieExample();
    WordTieExample();
  }

  /** A value cast twice out of three is the consensus. */
  lemma MajorityExample()
    ensures IsMostCommon(["5", "3", "5"], "5")
  {
    var s := ["5", "3", "5"];
    assert multiset(s)["5"] == 2 && multiset(s)["3"] == 1;
    MajorityIsMostCommon(s, "5");
  }

  /** Of two integer-like keys cast once each, the larger comes later in
      key order and wins. */
  lemma IndexTieExample()
    ensures IsMostCommon(["13", "3"], "13")
  {
    var t := ["13", "3"];
    assert IsArrayIndex("13") && IsArrayIndex("3") by {
      assert DigitsValue("13") == 13 by { assert "13"[..1] == "1"; }
    }
    assert forall x :: x in t ==> Count(t, x) == 1;
  }

  /** A word key comes after the integer-like keys and wins a tie. */
  lemma WordTieExample()
    ensures IsMostCommon(["?", "3"], "?")
  {
    var u := ["?", "3"];
    assert !IsArrayIndex("?") && IsArrayIndex("3");
    assert forall x :: x in u ==> Count(u, x) == 1;
  }

  // ---------------------------------------------------------------------
  // The archive row of a round

  /** Whether `h` is the archive row of round `round` of room `roomId`
      summarizing `votes`, with the given description. */
  predicate Summarizes(h: InsertVotingHistory, roomId: string, round: int, description: string, votes: seq<Vote>) {
    var sp := StoryPointVotes(votes);
    var te := TimeVotes(votes);
    && h.roomId == roomId && h.round == round && h.description == Some(description)
    && (|sp| == 0 ==> h.storyPointsConsensus == None && h.storyPointsAvg == None
                      && h.storyPointsMin == None && h.storyPointsMax == None)
    && (|sp| > 0 ==> && h.storyPointsConsensus.Some? && IsMostCommon(sp, h.storyPointsConsensus.value)
                     && h.storyPointsAvg == Some(CalculateAverage(sp))
                     && h.storyPointsMin == Some(MinOf(Values(sp)))
                     && h.storyPointsMax == Some(MaxOf(Values(sp))))
    && (|te| == 0 ==> h.timeEstimateConsensus == None && h.timeEstimateAvg == None
                      && h.timeEstimateMin == None && h.timeEstimateMax == None)
    && (|te| > 0 ==> && h.timeEstimateConsensus.Some? && IsMostCommon(te, h.timeEstimateConsensus.value)
                     && h.timeEstimateAvg == Some(CalculateAverage(te))
                     && h.timeEstimateMin == Some(MinOf(Values(te)))
                     && h.timeEstimateMax == Some(MaxOf(Values(te))))
  }

  /** The statistics of one dimension: consensus, average, minimum and
      maximum, or all four absent when nobody voted on it. */
  method DimensionStats(values: seq<string>)
    returns (consensus: Option<string>, avg: Option<Average>, lo: Option<real>, hi: Option<real>)
    ensures |values| == 0 ==> consensus == None && avg == None && lo == None && hi == None
    ensures |values| > 0 ==> && consensus.Some? && IsMostCommon(values, consensus.value)
                             && avg == Some(CalculateAverage(values))
                             && lo == Some(MinOf(Values(values))) && hi == Some(MaxOf(Values(values)))
  {
    if |values| == 0 {
      return None, None, None, None;
    }
    var c := GetMostCommon(values);
    consensus := Some(c);
    avg := Some(CalculateAverage(values));
    lo := Some(MinOf(Values(values)));
    hi := Some(MaxOf(Values(values)));
  }

  /** The history row saved when a round is archived. */
  method HistoryEntry(roomId: string, round: int, description: string, votes: seq<Vote>)
    returns (h: InsertVotingHistory)
    ensures Summarizes(h, roomId, round, description, votes)
  {
    var spc, spa, splo, sphi := DimensionStats(StoryPointVotes(votes));
    var tec, tea, telo, tehi := DimensionStats(TimeVotes(votes));
    h := InsertVotingHistory(roomId, round, Some(description), spc, tec, spa, splo, sphi, tea, telo, tehi);
  }

  /** A most common story point value is one of the values cast. */
  lemma ConsensusIsCast(votes: seq<Vote>, c: string)
    requires IsMostCommon(StoryPointVotes(votes), c)
    ensures exists i :: 0 <= i < |votes| && votes[i].storyPoints == Some(c)
  {
    var xs := StoryPointsOf(votes);
    PresentMembership(xs, c);
    var i :| 0 <= i < |xs| && xs[i] == Some(c);
    assert votes[i].storyPoints == Some(c);
  }

  /** The archived extremes bound the reading of every story point value
      cast. */
  lemma ExtremesBoundCast(votes: seq<Vote>, i: int)
    requires 0 <= i < |votes| && votes[i].storyPoints.Some? && votes[i].storyPoints.value != ""
    ensures var sp := StoryPointVotes(votes);
            |sp| > 0 && MinOf(Values(sp)) <= ParseVoteValue(votes[i].storyPoints.value) <= MaxOf(Values(sp))
  {
    var sp := StoryPointVotes(votes);
    var xs := StoryPointsOf(votes);
    var v := votes[i].storyPoints.value;
    assert xs[i] == Some(v);
    PresentMembership(xs, v);
    var k :| 0 <= k < |sp| && sp[k] == v;
    var ys := Values(sp);
    var y := ys[k];
    assert y == ParseVoteValue(v);
    assert y in ys;
    assert MinOf(ys) <= y <= MaxOf(ys);
  }
}
