/** What an analysis shows, in terms of the answers alone: the net promoter score, the overall
    rating, and every figure of every question. */
module AnalyticsShown {
  import opened FeedbackDomain
  import opened Questions
  import opened Analytics
  import opened AnalyticsFacts

  // ----- what is counted -----

  /** The answer rates the question with a number of lo..hi. */
  predicate RatedFrom(d: Question, lo: int, hi: int, a: Answer) {
    a.questionId == d.id && a.rating.Some? && lo <= a.rating.value <= hi
  }

  /** The places of the answers that rate the question with lo..hi. */
  ghost function RatedPlaces(d: Question, lo: int, hi: int, answers: seq<Answer>): set<nat> {
    set i: nat | i < |answers| && RatedFrom(d, lo, hi, answers[i])
  }

  lemma RatedPlacesSnoc(d: Question, lo: int, hi: int, init: seq<Answer>, answers: seq<Answer>)
    requires init <= answers && |answers| == |init| + 1
    ensures |RatedPlaces(d, lo, hi, answers)|
            == |RatedPlaces(d, lo, hi, init)| + if RatedFrom(d, lo, hi, answers[|init|]) then 1 else 0
  {
    var before, after, n := RatedPlaces(d, lo, hi, init), RatedPlaces(d, lo, hi, answers), |init|;
    assert n !in before;
    if RatedFrom(d, lo, hi, answers[n]) {
      assert after - {n} == before;
    } else {
      assert after == before;
    }
  }

  /** The measure counts by ones the answers that rate the question with lo..hi. */
  ghost predicate CountsRated(d: Question, m: Measure, lo: int, hi: int) {
    forall a :: Weight(d, m, a) == if RatedFrom(d, lo, hi, a) then 1 else 0
  }

  lemma {:induction false} CountIsRatedPlaces(d: Question, m: Measure, lo: int, hi: int, answers: seq<Answer>)
    requires CountsRated(d, m, lo, hi)
    ensures Count(d, m, answers) == |RatedPlaces(d, lo, hi, answers)|
  {
    if answers != [] {
      var n := |answers| - 1;
      CountIsRatedPlaces(d, m, lo, hi, answers[..n]);
      RatedPlacesSnoc(d, lo, hi, answers[..n], answers);
    }
  }

  /** Promoters gave 9 or 10, detractors 0 to 6, and every value of 0..10 is a response. */
  lemma NpsGroups(d: Question, answers: seq<Answer>)
    requires d.kind.NPS?
    ensures Count(d, Responses, answers) == |RatedPlaces(d, 0, 10, answers)|
    ensures Count(d, Promoters, answers) == |RatedPlaces(d, 9, 10, answers)|
    ensures Count(d, Detractors, answers) == |RatedPlaces(d, 0, 6, answers)|
  {
    CountIsRatedPlaces(d, Responses, 0, 10, answers);
    CountIsRatedPlaces(d, Promoters, 9, 10, answers);
    CountIsRatedPlaces(d, Detractors, 0, 6, answers);
  }

  /** A rating responds with a value of the scale, and each star has those who gave it. */
  lemma RatingGroups(d: Question, v: int, answers: seq<Answer>)
    requires d.kind.Rating? && 1 <= v <= d.scale
    ensures Count(d, Responses, answers) == |RatedPlaces(d, 1, d.scale, answers)|
    ensures Count(d, Stars(v), answers) == |RatedPlaces(d, v, v, answers)|
  {
    CountIsRatedPlaces(d, Responses, 1, d.scale, answers);
    CountIsRatedPlaces(d, Stars(v), v, v, answers);
  }

  // ----- the headline figures -----

  function Abs(x: int): nat {
    if x >= 0 then x else -x
  }

  /** `q` is `d` divided by `n` with the fraction dropped: the nearest whole number that lies
      between 0 and the quotient. */
  predicate QuotientTowardZero(d: int, n: nat, q: int) {
    Abs(d - q * n) < n && Abs(q * n) <= Abs(d) && q * d >= 0
  }

  lemma WithRemainder(d: nat, n: nat, q: nat, r: nat)
    requires d == n * q + r && r < n
    ensures QuotientTowardZero(d, n, q)
  {
    var product := n * q;
    assert q * n == product;
    assert q * d >= 0;
  }

  lemma PositiveQuotient(d: nat, n: nat)
    requires n > 0
    ensures QuotientTowardZero(d, n, d / n)
  {
    WithRemainder(d, n, d / n, d % n);
  }

  lemma MirroredQuotient(d: int, n: nat, q: int)
    requires QuotientTowardZero(d, n, q)
    ensures QuotientTowardZero(-d, n, -q)
  {
    assert (-q) * n == -(q * n);
    assert (-q) * (-d) == q * d;
  }

  lemma TruncDivIsQuotient(d: int, n: nat)
    requires n > 0
    ensures QuotientTowardZero(d, n, TruncDiv(d, n))
  {
    PositiveQuotient(Abs(d), n);
    if d < 0 {
      MirroredQuotient(-d, n, -d / n);
    }
  }

  /** The percentage of promoters less that of detractors among all responses to NPS questions,
      its fraction dropped; 0 without responses. */
  ghost predicate IsNetShare(nps: int, defs: seq<Question>, answers: seq<Answer>) {
    var n := SumOver(defs, IsNps, Responses, answers);
    var d := 100 * (SumOver(defs, IsNps, Promoters, answers) - SumOver(defs, IsNps, Detractors, answers));
    if n == 0 then nps == 0 else QuotientTowardZero(d, n, nps)
  }

  /** The mean of the ratings, each on a scale of five, to the nearest tenth; 0 without ratings. */
  ghost predicate IsFiveMean(rating: real, defs: seq<Question>, answers: seq<Answer>) {
    var n := SumOver(defs, IsRating, Responses, answers);
    if n == 0 then rating == 0.0 else NearestTenth(FiveShares(defs, answers) / n as real, rating)
  }

  lemma NpsOfCounters(defs: seq<Question>, answers: seq<Answer>)
    requires DistinctIds(defs)
    ensures IsNetShare(Headline(OverallOf(defs, answers)).1, defs, answers)
  {
    OverallAddsUp(defs, answers);
    var o := OverallOf(defs, answers);
    if o.npsN > 0 {
      TruncDivIsQuotient(o.promoters * 100 - o.detractors * 100, o.npsN);
    }
  }

  lemma MeanOfFive(sum: real, n: nat)
    requires n > 0 && 0.0 <= sum <= 5.0 * n as real
    ensures NearestTenth(sum / n as real, Round1(sum / n as real))
  {
    RealMean(sum, n as real, 5.0);
    Round1IsClose(sum / n as real, 0, 5);
  }

  lemma RatingOfCounters(defs: seq<Question>, answers: seq<Answer>)
    requires DistinctIds(defs)
    ensures IsFiveMean(Headline(OverallOf(defs, answers)).0, defs, answers)
  {
    OverallAddsUp(defs, answers);
    RatingSumAddsUp(defs, answers);
    OverallBounds(defs, answers);
    var o := OverallOf(defs, answers);
    if o.ratingN > 0 {
      MeanOfFive(o.ratingSum, o.ratingN);
    }
  }

  /** The shown NPS is the net share, the shown rating the mean, over the answers to the
      questions as first defined. */
  lemma HeadlineShows(forms: seq<seq<Question>>, subs: seq<seq<Answer>>)
    ensures IsNetShare(Analysis(forms, subs).nps, FirstDefs(Flat(forms)), Flat(subs))
    ensures IsFiveMean(Analysis(forms, subs).avgRating, FirstDefs(Flat(forms)), Flat(subs))
  {
    FirstDefsDistinct(Flat(forms));
    NpsOfCounters(FirstDefs(Flat(forms)), Flat(subs));
    RatingOfCounters(FirstDefs(Flat(forms)), Flat(subs));
  }

  // ----- the figures of a question -----

  /** The mean of the scores that count, to the nearest tenth; 0 when there are none. */
  ghost predicate ShowsMean(d: Question, average: real, answers: seq<Answer>) {
    var n := Count(d, Responses, answers);
    if Scored(d) && n > 0 then NearestTenth(Count(d, Total, answers) as real / n as real, average) else average == 0.0
  }

  /** The distribution of a rating: for each star the answers that gave it. */
  ghost predicate ShowsStars(d: Question, distribution: seq<nat>, answers: seq<Answer>) {
    if d.kind.Rating?
    then |distribution| == d.scale && forall v :: 1 <= v <= d.scale ==> distribution[v - 1] == Count(d, Stars(v), answers)
    else distribution == []
  }

  /** The tallies of a choice question: for each option that was picked, how often. */
  ghost predicate ShowsPicks(d: Question, choices: map<string, nat>, answers: seq<Answer>) {
    forall o :: Tally(choices, o) == Count(d, Pick(o), answers) && (o in choices <==> Count(d, Pick(o), answers) > 0)
  }

  /** An entry of the analysis: the question it is for, and its figures as counts over the answers. */
  ghost predicate Shows(d: Question, st: QuestionStat, answers: seq<Answer>) {
    && st.questionId == d.id && st.caption == d.caption && st.kind == d.kind
    && st.responses == Count(d, Responses, answers)
    && ShowsMean(d, st.average, answers)
    && ShowsStars(d, st.distribution, answers)
    && ShowsPicks(d, st.choices, answers)
    && st.texts == TextsOf(d, answers)
  }

  lemma {:induction false} NoTexts(d: Question, answers: seq<Answer>)
    requires !d.kind.FreeText?
    ensures TextsOf(d, answers) == []
  {
    if answers != [] {
      NoTexts(d, answers[..|answers| - 1]);
    }
  }

  lemma {:induction false} NoPicks(d: Question, o: string, answers: seq<Answer>)
    requires !d.kind.Choice?
    ensures Count(d, Pick(o), answers) == 0
  {
    if answers != [] {
      NoPicks(d, o, answers[..|answers| - 1]);
    }
  }

  lemma {:induction false} NoTotal(d: Question, answers: seq<Answer>)
    requires Scored(d) && Count(d, Responses, answers) == 0
    ensures Count(d, Total, answers) == 0
  {
    if answers != [] {
      NoTotal(d, answers[..|answers| - 1]);
    }
  }

  lemma PicksShown(d: Question, answers: seq<Answer>)
    requires d.kind.Rating? ==> d.scale >= 0
    ensures ShowsPicks(d, Accumulated(d, answers).choices, answers)
  {
    AccumulatedIsCounted(d, answers);
    UnusedFields(d, answers);
    if !d.kind.Choice? {
      forall o { NoPicks(d, o, answers); }
    }
  }

  lemma MeanShown(d: Question, answers: seq<Answer>)
    requires d.kind.Rating? ==> d.scale >= 0
    ensures ShowsMean(d, Finished(d, Accumulated(d, answers)).average, answers)
  {
    AccumulatedIsCounted(d, answers);
    UnusedFields(d, answers);
    if Scored(d) {
      if Count(d, Responses, answers) > 0 {
        AverageIsMean(d, answers);
      } else {
        NoTotal(d, answers);
      }
    }
  }

  lemma FiguresShown(d: Question, answers: seq<Answer>)
    requires d.kind.Rating? ==> d.scale >= 0
    ensures Shows(d, Finished(d, Accumulated(d, answers)), answers)
  {
    AccumulatedIsCounted(d, answers);
    UnusedFields(d, answers);
    MeanShown(d, answers);
    PicksShown(d, answers);
    if d.kind.FreeText? {
      TextsInOrder(d, answers);
    } else {
      NoTexts(d, answers);
    }
  }

  /** The whole analysis: the totals, and one entry for each definition, in their order, that
      shows its figures over all answers. */
  lemma AnalysisShows(forms: seq<seq<Question>>, subs: seq<seq<Answer>>)
    requires Makeable(FirstDefs(Flat(forms)))
    ensures var a, defs := Analysis(forms, subs), FirstDefs(Flat(forms));
            && a.totalForms == |forms| && a.totalSubmissions == |subs|
            && |a.questions| == |defs|
            && forall k :: 0 <= k < |defs| ==> Shows(defs[k], a.questions[k], Flat(subs))
  {
    var defs := FirstDefs(Flat(forms));
    forall k | 0 <= k < |defs| ensures Shows(defs[k], QuestionStats(defs, Flat(subs))[k], Flat(subs)) {
      FiguresShown(defs[k], Flat(subs));
    }
  }
}
