/** What the analytics mean: every figure is a count over the answers, the figures add up,
    the averages are in range, and the order of submissions does not matter. */
module AnalyticsFacts {
  import opened Collections
  import opened Text
  import opened FeedbackDomain
  import opened Questions
  import opened Analytics
  import Answers

  // ----- every figure is a count -----

  /** The running statistics of question `d` are the declarative counts over the answers. */
  ghost predicate IsCounted(d: Question, st: QuestionStat, answers: seq<Answer>) {
    && st.questionId == d.id && st.caption == d.caption && st.kind == d.kind
    && st.responses == Count(d, Responses, answers)
    && (Scored(d) ==> st.average == Count(d, Total, answers) as real)
    && (d.kind.Rating? ==>
          && |st.distribution| == d.scale
          && forall v :: 1 <= v <= d.scale ==> st.distribution[v - 1] == Count(d, Stars(v), answers))
    && (d.kind.Choice? ==>
          && (forall o :: o in st.choices <==> Count(d, Pick(o), answers) > 0)
          && (forall o :: o in st.choices ==> st.choices[o] == Count(d, Pick(o), answers)))
    && (d.kind.FreeText? ==> forall t :: multiset(st.texts)[t] == Count(d, Said(t), answers))
  }

  lemma {:induction false} AccumulatedIsCounted(d: Question, answers: seq<Answer>)
    requires d.kind.Rating? ==> d.scale >= 0
    ensures IsCounted(d, Accumulated(d, answers), answers)
  {
    if answers != [] {
      var n := |answers| - 1;
      AccumulatedIsCounted(d, answers[..n]);
      AddedIsCounted(d, Accumulated(d, answers[..n]), answers);
    }
  }

  lemma AddedIsCounted(d: Question, st: QuestionStat, answers: seq<Answer>)
    requires answers != [] && IsCounted(d, st, answers[..|answers| - 1])
    ensures IsCounted(d, AddAnswer(d, st, answers[|answers| - 1]), answers)
  {
    var a := answers[|answers| - 1];
    if Counts(d, a) {
      match d.kind {
        case Rating =>
        case NPS =>
        case Choice => AddedPicks(d, st, answers);
        case FreeText =>
      }
    }
  }

  lemma AddedPicks(d: Question, st: QuestionStat, answers: seq<Answer>)
    requires d.kind.Choice?
    requires answers != [] && Counts(d, answers[|answers| - 1]) && IsCounted(d, st, answers[..|answers| - 1])
    ensures IsCounted(d, AddAnswer(d, st, answers[|answers| - 1]), answers)
  {
    var picked := answers[|answers| - 1].choice;
    var after := Bump(st.choices, picked);
    forall o ensures (o in after <==> Count(d, Pick(o), answers) > 0) && Tally(after, o) == Count(d, Pick(o), answers) {
      BumpTally(st.choices, picked, o);
      assert o in picked <==> multiset(picked)[o] > 0;
    }
  }

  lemma {:induction false} BumpTally(choices: map<string, nat>, picked: seq<string>, o: string)
    ensures Tally(Bump(choices, picked), o) == Tally(choices, o) + multiset(picked)[o]
    ensures o in Bump(choices, picked) <==> o in choices || o in picked
  {
    if picked != [] {
      var n := |picked| - 1;
      BumpTally(choices, picked[..n], o);
      assert picked == picked[..n] + [picked[n]];
    }
  }

  /** The text answers to `d`, trimmed, in the order they came in. */
  function TextsOf(d: Question, answers: seq<Answer>): seq<string> {
    if answers == [] then []
    else
      var n := |answers| - 1;
      TextsOf(d, answers[..n]) + (if d.kind.FreeText? && Counts(d, answers[n]) then [TrimSpace(answers[n].text)] else [])
  }

  lemma {:induction false} TextsInOrder(d: Question, answers: seq<Answer>)
    requires d.kind.FreeText?
    ensures Accumulated(d, answers).texts == TextsOf(d, answers)
  {
    if answers != [] {
      TextsInOrder(d, answers[..|answers| - 1]);
    }
  }

  // ----- the figures add up -----

  function Sum(xs: seq<nat>): nat {
    if xs == [] then 0 else Sum(xs[..|xs| - 1]) + xs[|xs| - 1]
  }

  /** The stars of a rating question, level by level, up to `v`. */
  function StarsUpTo(d: Question, v: nat, answers: seq<Answer>): nat {
    if v == 0 then 0 else StarsUpTo(d, v - 1, answers) + Count(d, Stars(v), answers)
  }

  lemma {:induction false} StarsUpToSnoc(d: Question, v: nat, answers: seq<Answer>)
    requires d.kind.Rating? && answers != []
    ensures var n := |answers| - 1;
            StarsUpTo(d, v, answers)
            == StarsUpTo(d, v, answers[..n]) + (if Counts(d, answers[n]) && answers[n].rating.value <= v then 1 else 0)
  {
    if v > 0 {
      StarsUpToSnoc(d, v - 1, answers);
    }
  }

  lemma {:induction false} StarsSumUp(d: Question, answers: seq<Answer>)
    requires d.kind.Rating? && d.scale >= 0
    ensures StarsUpTo(d, d.scale, answers) == Count(d, Responses, answers)
  {
    if answers == [] {
      NoStars(d, d.scale);
    } else {
      StarsSumUp(d, answers[..|answers| - 1]);
      StarsUpToSnoc(d, d.scale, answers);
    }
  }

  lemma {:induction false} NoStars(d: Question, v: nat)
    ensures StarsUpTo(d, v, []) == 0
  {
    if v > 0 {
      NoStars(d, v - 1);
    }
  }

  lemma {:induction false} DistributionPrefix(d: Question, dist: seq<nat>, answers: seq<Answer>, v: nat)
    requires v <= |dist|
    requires forall k :: 0 <= k < |dist| ==> dist[k] == Count(d, Stars(k + 1), answers)
    ensures Sum(dist[..v]) == StarsUpTo(d, v, answers)
  {
    if v > 0 {
      DistributionPrefix(d, dist, answers, v - 1);
      assert dist[..v][..v - 1] == dist[..v - 1];
    }
  }

  /** A rating's distribution sums to its responses. */
  lemma DistributionSumsToResponses(d: Question, answers: seq<Answer>)
    requires d.kind.Rating? && d.scale >= 0
    ensures Sum(Accumulated(d, answers).distribution) == Accumulated(d, answers).responses
  {
    AccumulatedIsCounted(d, answers);
    var dist := Accumulated(d, answers).distribution;
    forall k | 0 <= k < |dist| ensures dist[k] == Count(d, Stars(k + 1), answers) {
      assert dist[k] == dist[(k + 1) - 1];
    }
    DistributionPrefix(d, dist, answers, |dist|);
    assert dist[..|dist|] == dist;
    StarsSumUp(d, answers);
  }

  ghost function SumValues(m: map<string, nat>): nat {
    if m == map[] then 0
    else
      var k :| k in m;
      m[k] + SumValues(m - {k})
  }

  lemma {:induction false} SumValuesPick(m: map<string, nat>, o: string)
    requires o in m
    ensures SumValues(m) == m[o] + SumValues(m - {o})
    decreases |m|
  {
    var k :| k in m && SumValues(m) == m[k] + SumValues(m - {k});
    if k != o {
      SumValuesPick(m - {k}, o);
      SumValuesPick(m - {o}, k);
      assert (m - {k}) - {o} == (m - {o}) - {k};
    }
  }

  lemma {:induction false} BumpSum(choices: map<string, nat>, picked: seq<string>)
    ensures SumValues(Bump(choices, picked)) == SumValues(choices) + |picked|
  {
    if picked != [] {
      var n := |picked| - 1;
      BumpSum(choices, picked[..n]);
      var before, after, o := Bump(choices, picked[..n]), Bump(choices, picked), picked[n];
      SumValuesPick(after, o);
      assert after - {o} == before - {o};
      if o in before {
        SumValuesPick(before, o);
      } else {
        assert before - {o} == before;
      }
    }
  }

  /** A choice question's tallies sum to the options picked. */
  lemma {:induction false} ChoicesSumToPicks(d: Question, answers: seq<Answer>)
    requires d.kind.Choice?
    ensures SumValues(Accumulated(d, answers).choices) == Count(d, Picks, answers)
  {
    if answers != [] {
      var n := |answers| - 1;
      ChoicesSumToPicks(d, answers[..n]);
      if Counts(d, answers[n]) {
        BumpSum(Accumulated(d, answers[..n]).choices, answers[n].choice);
      }
    }
  }

  // ----- averages -----

  function LowestScore(d: Question): nat {
    if d.kind.Rating? then 1 else 0
  }

  function HighestScore(d: Question): int {
    if d.kind.Rating? then d.scale else 10
  }

  lemma {:induction false} TotalBounds(d: Question, answers: seq<Answer>)
    requires Scored(d)
    ensures LowestScore(d) * Count(d, Responses, answers) <= Count(d, Total, answers)
    ensures Count(d, Total, answers) <= HighestScore(d) * Count(d, Responses, answers)
    ensures Count(d, Responses, answers) > 0 ==> HighestScore(d) >= LowestScore(d)
  {
    if answers != [] {
      TotalBounds(d, answers[..|answers| - 1]);
      Distribute(HighestScore(d), Count(d, Responses, answers[..|answers| - 1]));
    }
  }

  lemma Distribute(x: int, n: nat)
    ensures x * (n + 1) == x * n + x
  {
  }

  lemma MeanBounds(total: nat, n: nat, lo: nat, hi: nat)
    requires n > 0 && lo * n <= total <= hi * n
    ensures lo as real <= total as real / n as real <= hi as real
  {
    var mean := total as real / n as real;
    assert mean * n as real == total as real;
    assert (lo as real) * (n as real) <= total as real <= (hi as real) * (n as real);
  }

  /** The shown average is the true mean of the answers that count, to the nearest tenth, and
      in the range of the scale: 1..scale for a rating, 0..10 for an NPS question. */
  lemma AverageIsMean(d: Question, answers: seq<Answer>)
    requires Scored(d) && (d.kind.Rating? ==> d.scale >= 0)
    requires Count(d, Responses, answers) > 0
    ensures var average := Finished(d, Accumulated(d, answers)).average;
            var mean := Count(d, Total, answers) as real / Count(d, Responses, answers) as real;
            && NearestTenth(mean, average)
            && LowestScore(d) as real <= average <= HighestScore(d) as real
  {
    AccumulatedIsCounted(d, answers);
    TotalBounds(d, answers);
    var n, total := Count(d, Responses, answers), Count(d, Total, answers);
    MeanBounds(total, n, LowestScore(d), HighestScore(d));
    Round1IsClose(total as real / n as real, LowestScore(d), HighestScore(d));
  }

  // ----- the headline figures -----

  predicate IsRating(d: Question) { d.kind.Rating? }

  predicate IsNps(d: Question) { d.kind.NPS? }

  /** A quantity summed over the questions of one kind. */
  function SumOver(defs: seq<Question>, pick: Question -> bool, m: Measure, answers: seq<Answer>): nat {
    if defs == [] then 0
    else
      var n := |defs| - 1;
      SumOver(defs[..n], pick, m, answers) + (if pick(defs[n]) then Count(defs[n], m, answers) else 0)
  }

  lemma LastIdIsNew(defs: seq<Question>)
    requires defs != [] && DistinctIds(defs)
    ensures defs[|defs| - 1].id !in Ids(defs[..|defs| - 1])
  {
    if defs[|defs| - 1].id in Ids(defs[..|defs| - 1]) {
      var k := IdAt(defs[..|defs| - 1], defs[|defs| - 1].id);
    }
  }

  /** One answer adds to the sum what it adds to the question it belongs to. */
  lemma {:induction false} SumOverSnoc(defs: seq<Question>, pick: Question -> bool, m: Measure, answers: seq<Answer>)
    requires DistinctIds(defs) && answers != []
    ensures var n := |answers| - 1;
            var d := FindDef(defs, answers[n].questionId);
            SumOver(defs, pick, m, answers) == SumOver(defs, pick, m, answers[..n])
              + (if d.Some? && pick(d.value) then Weight(d.value, m, answers[n]) else 0)
  {
    if defs != [] {
      var k := |defs| - 1;
      var id := answers[|answers| - 1].questionId;
      SumOverSnoc(defs[..k], pick, m, answers);
      LastIdIsNew(defs);
      FindDefMisses(defs[..k], id);
    }
  }

  lemma {:induction false} NothingToSum(defs: seq<Question>, pick: Question -> bool, m: Measure)
    ensures SumOver(defs, pick, m, []) == 0
  {
    if defs != [] {
      NothingToSum(defs[..|defs| - 1], pick, m);
    }
  }

  /** The overall counters are the per-question counts added up. */
  lemma {:induction false} OverallAddsUp(defs: seq<Question>, answers: seq<Answer>)
    requires DistinctIds(defs)
    ensures var o := OverallOf(defs, answers);
            && o.ratingN == SumOver(defs, IsRating, Responses, answers)
            && o.npsN == SumOver(defs, IsNps, Responses, answers)
            && o.promoters == SumOver(defs, IsNps, Promoters, answers)
            && o.detractors == SumOver(defs, IsNps, Detractors, answers)
  {
    if answers == [] {
      NothingToSum(defs, IsRating, Responses);
      NothingToSum(defs, IsNps, Responses);
      NothingToSum(defs, IsNps, Promoters);
      NothingToSum(defs, IsNps, Detractors);
    } else {
      OverallAddsUp(defs, answers[..|answers| - 1]);
      SumOverSnoc(defs, IsRating, Responses, answers);
      SumOverSnoc(defs, IsNps, Responses, answers);
      SumOverSnoc(defs, IsNps, Promoters, answers);
      SumOverSnoc(defs, IsNps, Detractors, answers);
      FindDefMisses(defs, answers[|answers| - 1].questionId);
    }
  }

  lemma {:induction false} OverallBounds(defs: seq<Question>, answers: seq<Answer>)
    ensures var o := OverallOf(defs, answers);
            && 0.0 <= o.ratingSum <= 5.0 * o.ratingN as real
            && o.promoters + o.detractors <= o.npsN
  {
    if answers != [] {
      var n := |answers| - 1;
      OverallBounds(defs, answers[..n]);
      var d := FindDef(defs, answers[n].questionId);
      if d.Some? && Counts(d.value, answers[n]) && d.value.kind.Rating? {
        ShareOfFive(answers[n].rating.value, d.value.scale);
      }
    }
  }

  lemma ShareOfFive(rating: int, scale: int)
    requires 1 <= rating <= scale
    ensures 0.0 <= rating as real / scale as real * 5.0 <= 5.0
  {
    MeanBounds(rating, scale, 0, 1);
  }

  /** The overall rating lies in 0..5 and NPS in -100..100, whatever was answered. */
  lemma HeadlineInRange(forms: seq<seq<Question>>, subs: seq<seq<Answer>>)
    ensures 0.0 <= Analysis(forms, subs).avgRating <= 5.0
    ensures -100 <= Analysis(forms, subs).nps <= 100
  {
    var o := OverallOf(FirstDefs(Flat(forms)), Flat(subs));
    OverallBounds(FirstDefs(Flat(forms)), Flat(subs));
    if o.ratingN > 0 {
      RealMean(o.ratingSum, o.ratingN as real, 5.0);
      Round1IsClose(o.ratingSum / o.ratingN as real, 0, 5);
    }
    if o.npsN > 0 {
      NetShare(o.promoters, o.detractors, o.npsN);
    }
  }

  lemma RealMean(sum: real, n: real, hi: real)
    requires n > 0.0 && 0.0 <= sum <= hi * n
    ensures 0.0 <= sum / n <= hi
  {
  }

  lemma NetShare(promoters: nat, detractors: nat, n: nat)
    requires promoters + detractors <= n && n > 0
    ensures -100 <= TruncDiv(promoters * 100 - detractors * 100, n) <= 100
  {
    var a := promoters * 100 - detractors * 100;
    if a >= 0 {
      DivAtMost(a, n, 100);
    } else {
      DivAtMost(-a, n, 100);
    }
  }

  lemma DivAtMost(m: nat, n: nat, c: nat)
    requires n > 0 && m <= c * n
    ensures 0 <= m / n <= c
  {
  }

  // ----- the order of submissions -----

  lemma {:induction false} CountAppend(d: Question, m: Measure, a: seq<Answer>, b: seq<Answer>)
    ensures Count(d, m, a + b) == Count(d, m, a) + Count(d, m, b)
  {
    if b == [] {
      assert a + b == a;
    } else {
      CountAppend(d, m, a, b[..|b| - 1]);
      assert (a + b)[..|a + b| - 1] == a + b[..|b| - 1];
    }
  }

  /** The count, submission by submission. */
  function CountEach(d: Question, m: Measure, subs: seq<seq<Answer>>): nat {
    if subs == [] then 0 else CountEach(d, m, subs[..|subs| - 1]) + Count(d, m, subs[|subs| - 1])
  }

  lemma {:induction false} FlatCounts(d: Question, m: Measure, subs: seq<seq<Answer>>)
    ensures Count(d, m, Flat(subs)) == CountEach(d, m, subs)
  {
    if subs != [] {
      var n := |subs| - 1;
      FlatCounts(d, m, subs[..n]);
      CountAppend(d, m, Flat(subs[..n]), subs[n]);
    }
  }

  lemma {:induction false} EachAppend(d: Question, m: Measure, a: seq<seq<Answer>>, b: seq<seq<Answer>>)
    ensures CountEach(d, m, a + b) == CountEach(d, m, a) + CountEach(d, m, b)
  {
    if b == [] {
      assert a + b == a;
    } else {
      EachAppend(d, m, a, b[..|b| - 1]);
      assert (a + b)[..|a + b| - 1] == a + b[..|b| - 1];
    }
  }

  lemma {:induction false} EachPermuted(d: Question, m: Measure, subs: seq<seq<Answer>>, perm: seq<seq<Answer>>)
    requires multiset(subs) == multiset(perm)
    ensures CountEach(d, m, subs) == CountEach(d, m, perm)
    decreases |subs|
  {
    if subs == [] {
      assert |multiset(perm)| == 0;
    } else {
      var k := MatchLast(subs, perm);
      var pre, post := perm[..k], perm[k + 1..];
      EachPermuted(d, m, subs[..|subs| - 1], pre + post);
      EachAppend(d, m, pre, post);
      EachAppend(d, m, perm[..k + 1], post);
      assert perm == perm[..k + 1] + post && perm[..k + 1][..k] == pre;
    }
  }

  /** Every count is the same for every order of the submissions. */
  lemma CountPermuted(d: Question, m: Measure, subs: seq<seq<Answer>>, perm: seq<seq<Answer>>)
    requires multiset(subs) == multiset(perm)
    ensures Count(d, m, Flat(subs)) == Count(d, m, Flat(perm))
  {
    EachPermuted(d, m, subs, perm);
    FlatCounts(d, m, subs);
    FlatCounts(d, m, perm);
  }

  /** The statistics of a question agree up to the order of its texts. */
  ghost predicate SameButTextOrder(s: QuestionStat, t: QuestionStat) {
    s.(texts := []) == t.(texts := []) && multiset(s.texts) == multiset(t.texts)
  }

  lemma StatPermuted(d: Question, subs: seq<seq<Answer>>, perm: seq<seq<Answer>>)
    requires multiset(subs) == multiset(perm)
    requires d.kind.Rating? ==> d.scale >= 0
    ensures SameButTextOrder(Finished(d, Accumulated(d, Flat(subs))), Finished(d, Accumulated(d, Flat(perm))))
  {
    AccumulatedIsCounted(d, Flat(subs));
    AccumulatedIsCounted(d, Flat(perm));
    forall m { CountPermuted(d, m, subs, perm); }
    CountedIsDetermined(d, Flat(subs), Flat(perm));
  }

  /** Equal counts make equal statistics: the counts say everything but the order of texts. */
  lemma CountedIsDetermined(d: Question, a: seq<Answer>, b: seq<Answer>)
    requires d.kind.Rating? ==> d.scale >= 0
    requires forall m :: Count(d, m, a) == Count(d, m, b)
    ensures SameButTextOrder(Accumulated(d, a), Accumulated(d, b))
  {
    AccumulatedIsCounted(d, a);
    AccumulatedIsCounted(d, b);
    UnusedFields(d, a);
    UnusedFields(d, b);
    var s, t := Accumulated(d, a), Accumulated(d, b);
    if d.kind.Rating? {
      forall k | 0 <= k < d.scale ensures s.distribution[k] == t.distribution[k] {
        assert s.distribution[(k + 1) - 1] == Count(d, Stars(k + 1), a);
        assert t.distribution[(k + 1) - 1] == Count(d, Stars(k + 1), b);
      }
      assert s.distribution == t.distribution;
    }
    if d.kind.Choice? {
      assert s.choices == t.choices;
    }
    if d.kind.FreeText? {
      assert multiset(s.texts) == multiset(t.texts);
    }
  }

  lemma {:induction false} UnusedFields(d: Question, answers: seq<Answer>)
    ensures var st := Accumulated(d, answers);
            && (!Scored(d) ==> st.average == 0.0)
            && (!d.kind.Rating? ==> st.distribution == [])
            && (!d.kind.Choice? ==> st.choices == map[])
            && (!d.kind.FreeText? ==> st.texts == [])
  {
    if answers != [] {
      UnusedFields(d, answers[..|answers| - 1]);
    }
  }

  /** What a rating question adds to the overall rating: its total on a scale of five. */
  function FiveShare(d: Question, answers: seq<Answer>): real {
    if d.kind.Rating? && d.scale > 0 then Count(d, Total, answers) as real / d.scale as real * 5.0 else 0.0
  }

  function FiveShares(defs: seq<Question>, answers: seq<Answer>): real {
    if defs == [] then 0.0 else FiveShares(defs[..|defs| - 1], answers) + FiveShare(defs[|defs| - 1], answers)
  }

  lemma FiveShareSnoc(d: Question, answers: seq<Answer>)
    requires answers != []
    ensures var n := |answers| - 1;
            FiveShare(d, answers) == FiveShare(d, answers[..n])
              + (if d.kind.Rating? && Counts(d, answers[n]) then answers[n].rating.value as real / d.scale as real * 5.0 else 0.0)
  {
    var n := |answers| - 1;
    if d.kind.Rating? && Counts(d, answers[n]) {
      SplitShare(Count(d, Total, answers[..n]) as real, answers[n].rating.value as real, d.scale as real);
    }
  }

  lemma SplitShare(x: real, y: real, scale: real)
    requires scale > 0.0
    ensures (x + y) / scale * 5.0 == x / scale * 5.0 + y / scale * 5.0
  {
  }

  lemma {:induction false} FiveSharesSnoc(defs: seq<Question>, answers: seq<Answer>)
    requires DistinctIds(defs) && answers != []
    ensures var n := |answers| - 1;
            var d := FindDef(defs, answers[n].questionId);
            FiveShares(defs, answers) == FiveShares(defs, answers[..n])
              + (if d.Some? && d.value.kind.Rating? && Counts(d.value, answers[n])
                 then answers[n].rating.value as real / d.value.scale as real * 5.0 else 0.0)
  {
    if defs != [] {
      var k := |defs| - 1;
      FiveSharesSnoc(defs[..k], answers);
      FiveShareSnoc(defs[k], answers);
      LastIdIsNew(defs);
      FindDefMisses(defs[..k], answers[|answers| - 1].questionId);
    }
  }

  /** The overall rating sum is the per-question totals, each on a scale of five. */
  lemma {:induction false} RatingSumAddsUp(defs: seq<Question>, answers: seq<Answer>)
    requires DistinctIds(defs)
    ensures OverallOf(defs, answers).ratingSum == FiveShares(defs, answers)
  {
    if answers == [] {
      NoShares(defs);
    } else {
      RatingSumAddsUp(defs, answers[..|answers| - 1]);
      FiveSharesSnoc(defs, answers);
    }
  }

  lemma {:induction false} NoShares(defs: seq<Question>)
    ensures FiveShares(defs, []) == 0.0
  {
    if defs != [] {
      NoShares(defs[..|defs| - 1]);
    }
  }

  lemma {:induction false} SumsPermuted(defs: seq<Question>, pick: Question -> bool, m: Measure,
                                        subs: seq<seq<Answer>>, perm: seq<seq<Answer>>)
    requires multiset(subs) == multiset(perm)
    ensures SumOver(defs, pick, m, Flat(subs)) == SumOver(defs, pick, m, Flat(perm))
    ensures FiveShares(defs, Flat(subs)) == FiveShares(defs, Flat(perm))
  {
    if defs != [] {
      SumsPermuted(defs[..|defs| - 1], pick, m, subs, perm);
      CountPermuted(defs[|defs| - 1], m, subs, perm);
      CountPermuted(defs[|defs| - 1], Total, subs, perm);
    }
  }

  /** Permuting the submissions changes nothing in the analysis but the order of texts. */
  lemma AnalysisPermuted(forms: seq<seq<Question>>, subs: seq<seq<Answer>>, perm: seq<seq<Answer>>)
    requires multiset(subs) == multiset(perm)
    requires Makeable(FirstDefs(Flat(forms)))
    ensures var a, b := Analysis(forms, subs), Analysis(forms, perm);
            && a.(questions := []) == b.(questions := [])
            && |a.questions| == |b.questions|
            && forall k :: 0 <= k < |a.questions| ==> SameButTextOrder(a.questions[k], b.questions[k])
  {
    var defs := FirstDefs(Flat(forms));
    FirstDefsDistinct(Flat(forms));
    assert |subs| == |multiset(subs)| == |perm|;
    OverallAddsUp(defs, Flat(subs));
    OverallAddsUp(defs, Flat(perm));
    RatingSumAddsUp(defs, Flat(subs));
    RatingSumAddsUp(defs, Flat(perm));
    SumsPermuted(defs, IsRating, Responses, subs, perm);
    SumsPermuted(defs, IsNps, Responses, subs, perm);
    SumsPermuted(defs, IsNps, Promoters, subs, perm);
    SumsPermuted(defs, IsNps, Detractors, subs, perm);
    forall k | 0 <= k < |defs| {
      StatPermuted(defs[k], subs, perm);
    }
  }

  // ----- accepted answers are counted once -----

  lemma {:induction false} NoCountElsewhere(q: Question, m: Measure, answers: seq<Answer>)
    requires forall a :: a in answers ==> a.questionId != q.id
    ensures Count(q, m, answers) == 0
  {
    if answers != [] {
      NoCountElsewhere(q, m, answers[..|answers| - 1]);
    }
  }

  lemma {:induction false} AcceptedIds(qs: seq<Question>, given: seq<Answer>)
    requires Answers.CheckAll(qs, given).Ok?
    ensures forall a :: a in Answers.CheckAll(qs, given).value ==> exists i :: 0 <= i < |qs| && qs[i].id == a.questionId
  {
    if qs != [] {
      var n := |qs| - 1;
      AcceptedIds(qs[..n], given);
      Answers.CheckedIsClean(qs[n], Answers.Given(given, qs[n].id));
      forall a | a in Answers.CheckAll(qs, given).value ensures exists i :: 0 <= i < |qs| && qs[i].id == a.questionId {
        if a in Answers.CheckAll(qs[..n], given).value {
          var i :| 0 <= i < n && qs[..n][i].id == a.questionId;
          assert qs[i].id == a.questionId;
        } else {
          assert qs[n].id == a.questionId;
        }
      }
    }
  }

  /** In one accepted submission the value given to question `i` is counted exactly once. */
  lemma {:induction false} AcceptedCountsOnce(qs: seq<Question>, given: seq<Answer>, i: nat, m: Measure)
    requires DistinctIds(qs) && Answers.CheckAll(qs, given).Ok? && i < |qs|
    ensures Count(qs[i], m, Answers.CheckAll(qs, given).value)
            == Weight(qs[i], m, Answers.Cleaned(qs[i], Answers.ValueFor(given, qs[i].id)))
  {
    var n := |qs| - 1;
    CountLast(qs, given, qs[i], m);
    CheckedWeight(qs[n], Answers.Given(given, qs[n].id));
    if i < n {
      AcceptedCountsOnce(qs[..n], given, i, m);
      assert qs[i].id != qs[n].id;
    } else {
      NoneBefore(qs, given, m);
    }
  }

  /** The answers stored before the last question are none of its own. */
  lemma NoneBefore(qs: seq<Question>, given: seq<Answer>, m: Measure)
    requires DistinctIds(qs) && qs != [] && Answers.CheckAll(qs[..|qs| - 1], given).Ok?
    ensures Count(qs[|qs| - 1], m, Answers.CheckAll(qs[..|qs| - 1], given).value) == 0
  {
    AcceptedIds(qs[..|qs| - 1], given);
    NoCountElsewhere(qs[|qs| - 1], m, Answers.CheckAll(qs[..|qs| - 1], given).value);
  }

  /** What the last question of a form adds to a count. */
  lemma CountLast(qs: seq<Question>, given: seq<Answer>, d: Question, m: Measure)
    requires qs != [] && Answers.CheckAll(qs, given).Ok?
    ensures var n := |qs| - 1;
            var stored := Answers.Check(qs[n], Answers.Given(given, qs[n].id)).value;
            Count(d, m, Answers.CheckAll(qs, given).value)
            == Count(d, m, Answers.CheckAll(qs[..n], given).value) + if stored.Some? then Weight(d, m, stored.value) else 0
  {
    var n := |qs| - 1;
    var before := Answers.CheckAll(qs[..n], given).value;
    var stored := Answers.AsSeq(Answers.Check(qs[n], Answers.Given(given, qs[n].id)).value);
    CountAppend(d, m, before, stored);
    CountSingle(d, m, stored);
  }

  lemma CountSingle(d: Question, m: Measure, answers: seq<Answer>)
    requires |answers| <= 1
    ensures Count(d, m, answers) == if answers == [] then 0 else Weight(d, m, answers[0])
  {
    if answers != [] {
      assert answers[..0] == [];
    }
  }

  /** What is stored for a question is its cleaned value; when nothing is, it would not count. */
  lemma CheckedWeight(q: Question, a: Option<Answer>)
    requires Answers.Check(q, a).Ok?
    ensures var v := Answers.Cleaned(q, if a.Some? then a.value else Answers.NO_ANSWER);
            var stored := Answers.Check(q, a).value;
            v.questionId == q.id && if stored.Some? then stored.value == v else !Counts(q, v)
  {
    TrimIsTrimmed(Answers.NO_ANSWER.text);
  }

  /** The stored answers of submissions that were all accepted. */
  function Stored(qs: seq<Question>, given: seq<seq<Answer>>): seq<seq<Answer>> {
    if given == [] then []
    else
      var n := |given| - 1;
      Stored(qs, given[..n]) + (match Answers.CheckAll(qs, given[n]) case Ok(out) => [out] case Err(_) => [])
  }

  /** How many accepted submissions said something to question `q`. */
  function Respondents(qs: seq<Question>, q: Question, given: seq<seq<Answer>>): nat {
    if given == [] then 0
    else
      var n := |given| - 1;
      Respondents(qs, q, given[..n])
      + (if Answers.CheckAll(qs, given[n]).Ok? && Answers.Says(q, Answers.ValueFor(given[n], q.id)) then 1 else 0)
  }

  lemma CleanedStillCounts(q: Question, a: Answer)
    requires Answers.InRange(q, a)
    ensures Counts(q, Answers.Cleaned(q, a)) <==> Answers.Says(q, a)
  {
    TrimIsTrimmed(a.text);
  }

  lemma {:induction false} ResponsesAreRespondents(qs: seq<Question>, given: seq<seq<Answer>>, i: nat)
    requires DistinctIds(qs) && i < |qs|
    ensures Count(qs[i], Responses, Flat(Stored(qs, given))) == Respondents(qs, qs[i], given)
  {
    if given != [] {
      var n := |given| - 1;
      ResponsesAreRespondents(qs, given[..n], i);
      if Answers.CheckAll(qs, given[n]).Ok? {
        var stored, out := Stored(qs, given[..n]), Answers.CheckAll(qs, given[n]).value;
        assert (stored + [out])[..|stored|] == stored;
        CountAppend(qs[i], Responses, Flat(stored), out);
        AcceptedCountsOnce(qs, given[n], i, Responses);
        Answers.AcceptedIff(qs, given[n]);
        assert qs[i] in qs;
        CleanedStillCounts(qs[i], Answers.ValueFor(given[n], qs[i].id));
      } else {
        assert Stored(qs, given) == Stored(qs, given[..n]);
      }
    }
  }

  lemma {:induction false} DistinctAreFirst(qs: seq<Question>)
    requires DistinctIds(qs)
    ensures FirstDefs(qs) == qs
  {
    if qs != [] {
      DistinctAreFirst(qs[..|qs| - 1]);
      LastIdIsNew(qs);
    }
  }

  /** For a form with distinct question IDs that is not edited, the analysis of the accepted
      submissions shows for each question the number of submissions that answered it. */
  lemma ResponsesCountSubmissions(qs: seq<Question>, given: seq<seq<Answer>>, i: nat)
    requires DistinctIds(qs) && i < |qs|
    requires qs[i].kind.Rating? ==> qs[i].scale >= 0
    ensures var a := Analysis([qs], Stored(qs, given));
            |a.questions| == |qs| && a.questions[i].questionId == qs[i].id
            && a.questions[i].responses == Respondents(qs, qs[i], given)
  {
    OneForm(qs);
    ResponsesAreRespondents(qs, given, i);
    AccumulatedIsCounted(qs[i], Flat(Stored(qs, given)));
  }

  lemma OneForm(qs: seq<Question>)
    requires DistinctIds(qs)
    ensures FirstDefs(Flat([qs])) == qs
  {
    var one := [qs];
    assert one[..0] == [];
    assert Flat(one) == [] + qs == qs;
    DistinctAreFirst(qs);
  }
}
