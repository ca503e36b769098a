/** Per-question and overall statistics of feedback submissions. A form counts here as its
    list of questions and a submission as its list of answers. */
module Analytics {
  import opened Collections
  import opened Text
  import opened FeedbackDomain
  import opened Questions

  // ----- rounding -----

  /** Go's conversion of a float to an integer: the fraction is dropped. */
  function Truncate(v: real): int {
    if v >= 0.0 then v.Floor else -((-v).Floor)
  }

  function Round1(v: real): real {
    Truncate(v * 10.0 + 0.5) as real / 10.0
  }

  /** `shown` is a whole number of tenths, and the nearest to `v`: of two as near the higher. */
  ghost predicate NearestTenth(v: real, shown: real) {
    && (shown * 10.0).Floor as real == shown * 10.0
    && v - 0.05 < shown <= v + 0.05
  }

  /** For the non-negative averages it is used on, rounding finds the nearest tenth, never
      past a whole number. */
  lemma Round1IsClose(v: real, lo: nat, hi: nat)
    requires lo as real <= v <= hi as real
    ensures NearestTenth(v, Round1(v))
    ensures lo as real <= Round1(v) <= hi as real
  {
    var t := Truncate(v * 10.0 + 0.5);
    assert (10 * lo) as real <= v * 10.0 + 0.5 < (10 * hi + 1) as real;
    assert 10 * lo <= t <= 10 * hi;
    assert Round1(v) * 10.0 == t as real;
  }

  /** There is only one nearest tenth. */
  lemma NearestTenthIsUnique(v: real, a: real, b: real)
    requires NearestTenth(v, a) && NearestTenth(v, b)
    ensures a == b
  {
    var s, t := (a * 10.0).Floor, (b * 10.0).Floor;
    assert -1.0 < s as real - t as real < 1.0;
    assert s == t;
  }

  /** Go's integer division, toward zero. */
  function TruncDiv(a: int, b: int): int
    requires b > 0
  {
    if a >= 0 then a / b else -(-a / b)
  }

  // ----- definitions -----

  function Flat<T>(xss: seq<seq<T>>): seq<T> {
    if xss == [] then [] else Flat(xss[..|xss| - 1]) + xss[|xss| - 1]
  }

  function Ids(qs: seq<Question>): set<string> {
    if qs == [] then {} else Ids(qs[..|qs| - 1]) + {qs[|qs| - 1].id}
  }

  lemma {:induction false} IdsHold(qs: seq<Question>, k: nat)
    requires k < |qs|
    ensures qs[k].id in Ids(qs)
  {
    if k < |qs| - 1 {
      IdsHold(qs[..|qs| - 1], k);
    }
  }

  lemma {:induction false} IdAt(qs: seq<Question>, id: string) returns (k: nat)
    requires id in Ids(qs)
    ensures k < |qs| && qs[k].id == id
  {
    var n := |qs| - 1;
    if qs[n].id == id {
      k := n;
    } else {
      k := IdAt(qs[..n], id);
    }
  }

  /** For each question ID its first definition, in order of first appearance. */
  function FirstDefs(qs: seq<Question>): seq<Question> {
    if qs == [] then [] else WithDef(FirstDefs(qs[..|qs| - 1]), qs[|qs| - 1])
  }

  function WithDef(ds: seq<Question>, q: Question): seq<Question> {
    if q.id in Ids(ds) then ds else ds + [q]
  }

  lemma FirstDefsSnoc(qs: seq<Question>, q: Question)
    ensures FirstDefs(qs + [q]) == WithDef(FirstDefs(qs), q)
  {
    assert (qs + [q])[..|qs|] == qs;
  }

  lemma DistinctSnoc(ds: seq<Question>, q: Question)
    requires DistinctIds(ds)
    ensures DistinctIds(WithDef(ds, q)) && Ids(WithDef(ds, q)) == Ids(ds) + {q.id}
  {
    assert (ds + [q])[..|ds|] == ds;
    forall i | 0 <= i < |ds| ensures ds[i].id in Ids(ds) {
      IdsHold(ds, i);
    }
  }

  lemma {:induction false} FirstDefsDistinct(qs: seq<Question>)
    ensures DistinctIds(FirstDefs(qs)) && Ids(FirstDefs(qs)) == Ids(qs)
  {
    if qs != [] {
      FirstDefsDistinct(qs[..|qs| - 1]);
      DistinctSnoc(FirstDefs(qs[..|qs| - 1]), qs[|qs| - 1]);
    }
  }

  /** No earlier question has the ID of question `i`. */
  ghost predicate FirstOfItsId(qs: seq<Question>, i: nat)
    requires i < |qs|
  {
    forall j :: 0 <= j < i ==> qs[j].id != qs[i].id
  }

  /** `at` gives the place of each definition: the first of its ID, places in order. */
  ghost predicate Tracks(qs: seq<Question>, ds: seq<Question>, at: seq<nat>) {
    && |at| == |ds|
    && (forall k :: 0 <= k < |at| ==> at[k] < |qs| && ds[k] == qs[at[k]] && FirstOfItsId(qs, at[k]))
    && (forall j, k :: 0 <= j < k < |at| ==> at[j] < at[k])
  }

  lemma {:induction false} DefsTracked(qs: seq<Question>) returns (at: seq<nat>)
    ensures Tracks(qs, FirstDefs(qs), at)
  {
    if qs == [] {
      at := [];
    } else {
      var before := DefsTracked(qs[..|qs| - 1]);
      at := TracksNext(qs, before);
    }
  }

  lemma TracksNext(qs: seq<Question>, before: seq<nat>) returns (at: seq<nat>)
    requires qs != [] && Tracks(qs[..|qs| - 1], FirstDefs(qs[..|qs| - 1]), before)
    ensures Tracks(qs, FirstDefs(qs), at)
  {
    FirstDefsDistinct(qs[..|qs| - 1]);
    at := TracksSnoc(qs[..|qs| - 1], qs, FirstDefs(qs[..|qs| - 1]), before);
  }

  /** Every ID appears once, with its first definition, in the order of first appearance. */
  lemma FirstDefsAreFirst(qs: seq<Question>) returns (at: seq<nat>)
    ensures Ids(FirstDefs(qs)) == Ids(qs)
    ensures Tracks(qs, FirstDefs(qs), at)
  {
    FirstDefsDistinct(qs);
    at := DefsTracked(qs);
  }

  lemma FirstStays(init: seq<Question>, qs: seq<Question>, i: nat)
    requires init <= qs && i < |init| && FirstOfItsId(init, i)
    ensures FirstOfItsId(qs, i)
  {
  }

  lemma NewIsFirst(init: seq<Question>, qs: seq<Question>)
    requires init <= qs && |qs| == |init| + 1 && qs[|init|].id !in Ids(init)
    ensures FirstOfItsId(qs, |init|)
  {
    forall i | 0 <= i < |init| ensures qs[i].id != qs[|init|].id {
      IdsHold(init, i);
    }
  }

  lemma TracksSnoc(init: seq<Question>, qs: seq<Question>, ds: seq<Question>, at: seq<nat>) returns (at': seq<nat>)
    requires init <= qs && |qs| == |init| + 1 && Tracks(init, ds, at) && Ids(ds) == Ids(init)
    ensures Tracks(qs, WithDef(ds, qs[|init|]), at')
  {
    TracksStay(init, qs, ds, at);
    at' := at;
    if qs[|init|].id !in Ids(ds) {
      NewIsFirst(init, qs);
      TracksNew(init, qs, ds, at);
      at' := at + [|init|];
    }
  }

  lemma TracksStay(init: seq<Question>, qs: seq<Question>, ds: seq<Question>, at: seq<nat>)
    requires init <= qs && Tracks(init, ds, at)
    ensures Tracks(qs, ds, at)
  {
    forall k | 0 <= k < |at| ensures at[k] < |qs| && ds[k] == qs[at[k]] && FirstOfItsId(qs, at[k]) {
      FirstStays(init, qs, at[k]);
    }
  }

  lemma TracksNew(init: seq<Question>, qs: seq<Question>, ds: seq<Question>, at: seq<nat>)
    requires init <= qs && |qs| == |init| + 1 && Tracks(init, ds, at) && Tracks(qs, ds, at) && FirstOfItsId(qs, |init|)
    ensures Tracks(qs, ds + [qs[|init|]], at + [|init|])
  {
  }

  // ----- what counts -----

  /** The answer is one to question `d` and its value counts. */
  predicate Counts(d: Question, a: Answer) {
    a.questionId == d.id &&
    match d.kind
    case Rating => a.rating.Some? && 1 <= a.rating.value <= d.scale
    case NPS => a.rating.Some? && 0 <= a.rating.value <= 10
    case Choice => a.choice != []
    case FreeText => !Blank(a.text)
    case Other(_) => false
  }

  /** The quantities that are counted over answers. */
  datatype Measure = Responses | Total | Stars(v: int) | Picks | Pick(option: string) | Said(text: string)
                   | Promoters | Detractors

  predicate Scored(d: Question) {
    d.kind.Rating? || d.kind.NPS?
  }

  /** What one answer adds to each quantity of question `d`. */
  function Weight(d: Question, m: Measure, a: Answer): nat {
    if !Counts(d, a) then 0
    else
      match m
      case Responses => 1
      case Total => if Scored(d) then a.rating.value else 0
      case Stars(v) => if d.kind.Rating? && a.rating.value == v then 1 else 0
      case Picks => if d.kind.Choice? then |a.choice| else 0
      case Pick(o) => if d.kind.Choice? then multiset(a.choice)[o] else 0
      case Said(t) => if d.kind.FreeText? && TrimSpace(a.text) == t then 1 else 0
      case Promoters => if d.kind.NPS? && a.rating.value >= 9 then 1 else 0
      case Detractors => if d.kind.NPS? && a.rating.value <= 6 then 1 else 0
  }

  /** The declarative count: the quantity summed over the answers. */
  function Count(d: Question, m: Measure, answers: seq<Answer>): nat {
    if answers == [] then 0
    else Count(d, m, answers[..|answers| - 1]) + Weight(d, m, answers[|answers| - 1])
  }

  // ----- the statistics -----

  datatype QuestionStat = QuestionStat(questionId: string, caption: string, kind: QuestionType, responses: nat,
                                       average: real, distribution: seq<nat>, choices: map<string, nat>, texts: seq<string>)

  datatype Overall = Overall(ratingSum: real, ratingN: nat, promoters: nat, detractors: nat, npsN: nat)

  datatype FormAnalytics = FormAnalytics(totalForms: nat, totalSubmissions: nat, avgRating: real, nps: int,
                                         questions: seq<QuestionStat>)

  function Zeros(n: int): seq<nat> {
    if n <= 0 then [] else seq(n, _ => 0)
  }

  function EmptyStat(d: Question): QuestionStat {
    QuestionStat(d.id, d.caption, d.kind, 0, 0.0, if d.kind.Rating? then Zeros(d.scale) else [], map[], [])
  }

  function Bump(choices: map<string, nat>, picked: seq<string>): map<string, nat> {
    if picked == [] then choices
    else
      var n := |picked| - 1;
      var before := Bump(choices, picked[..n]);
      before[picked[n] := Tally(before, picked[n]) + 1]
  }

  function Tally(choices: map<string, nat>, o: string): nat {
    if o in choices then choices[o] else 0
  }

  /** One answer added to the running statistics of question `d`. */
  function AddAnswer(d: Question, st: QuestionStat, a: Answer): QuestionStat {
    if !Counts(d, a) then st
    else
      var st := st.(responses := st.responses + 1);
      match d.kind
      case Rating =>
        var k := a.rating.value - 1;
        st.(average := st.average + a.rating.value as real,
            distribution := if k < |st.distribution| then st.distribution[k := st.distribution[k] + 1] else st.distribution)
      case NPS => st.(average := st.average + a.rating.value as real)
      case Choice => st.(choices := Bump(st.choices, a.choice))
      case _ => st.(texts := st.texts + [TrimSpace(a.text)])
  }

  function Accumulated(d: Question, answers: seq<Answer>): QuestionStat {
    if answers == [] then EmptyStat(d)
    else AddAnswer(d, Accumulated(d, answers[..|answers| - 1]), answers[|answers| - 1])
  }

  function Finished(d: Question, st: QuestionStat): QuestionStat {
    if st.responses > 0 && Scored(d) then st.(average := Round1(st.average / st.responses as real)) else st
  }

  function FindDef(defs: seq<Question>, id: string): Option<Question> {
    if defs == [] then None else if defs[|defs| - 1].id == id then Some(defs[|defs| - 1]) else FindDef(defs[..|defs| - 1], id)
  }

  function AddOverall(d: Question, o: Overall, a: Answer): Overall {
    if !Counts(d, a) then o
    else
      match d.kind
      case Rating =>
        o.(ratingSum := o.ratingSum + a.rating.value as real / d.scale as real * 5.0, ratingN := o.ratingN + 1)
      case NPS =>
        o.(npsN := o.npsN + 1,
           promoters := o.promoters + (if a.rating.value >= 9 then 1 else 0),
           detractors := o.detractors + (if a.rating.value <= 6 then 1 else 0))
      case _ => o
  }

  function OverallOf(defs: seq<Question>, answers: seq<Answer>): Overall {
    if answers == [] then Overall(0.0, 0, 0, 0, 0)
    else
      var n := |answers| - 1;
      var before := OverallOf(defs, answers[..n]);
      match FindDef(defs, answers[n].questionId)
      case None => before
      case Some(d) => AddOverall(d, before, answers[n])
  }

  function Headline(o: Overall): (real, int) {
    (if o.ratingN > 0 then Round1(o.ratingSum / o.ratingN as real) else 0.0,
     if o.npsN > 0 then TruncDiv(o.promoters * 100 - o.detractors * 100, o.npsN) else 0)
  }

  function Analysis(forms: seq<seq<Question>>, subs: seq<seq<Answer>>): FormAnalytics {
    var defs, answers := FirstDefs(Flat(forms)), Flat(subs);
    var head := Headline(OverallOf(defs, answers));
    FormAnalytics(|forms|, |subs|, head.0, head.1, QuestionStats(defs, answers))
  }

  function QuestionStats(defs: seq<Question>, answers: seq<Answer>): seq<QuestionStat> {
    seq(|defs|, k requires 0 <= k < |defs| => Finished(defs[k], Accumulated(defs[k], answers)))
  }

  // ----- the loops of `aggregate` -----

  datatype Def = Def(q: Question, order: nat)

  ghost predicate Indexes(defs: map<string, Def>, ds: seq<Question>) {
    && DistinctIds(ds)
    && defs.Keys == Ids(ds)
    && forall k :: 0 <= k < |ds| ==> ds[k].id in defs && defs[ds[k].id] == Def(ds[k], k)
  }

  method CollectDefinitions(forms: seq<seq<Question>>) returns (defs: map<string, Def>)
    ensures Indexes(defs, FirstDefs(Flat(forms)))
  {
    defs := map[];
    var order := 0;
    for i := 0 to |forms|
      invariant Indexes(defs, FirstDefs(Flat(forms[..i]))) && order == |FirstDefs(Flat(forms[..i]))|
    {
      FlatStep(forms, i);
      defs, order := CollectFrom(defs, order, forms[i], Flat(forms[..i]));
    }
    assert forms[..|forms|] == forms;
  }

  lemma IndexesSnoc(defs: map<string, Def>, ds: seq<Question>, q: Question)
    requires Indexes(defs, ds)
    ensures q.id in defs ==> WithDef(ds, q) == ds
    ensures q.id !in defs ==> Indexes(defs[q.id := Def(q, |ds|)], WithDef(ds, q)) && |WithDef(ds, q)| == |ds| + 1
  {
    DistinctSnoc(ds, q);
  }

  /** The inner loop, over the questions of one form. */
  method CollectFrom(defs0: map<string, Def>, order0: nat, form: seq<Question>, ghost before: seq<Question>)
    returns (defs: map<string, Def>, order: nat)
    requires Indexes(defs0, FirstDefs(before)) && order0 == |FirstDefs(before)|
    ensures Indexes(defs, FirstDefs(before + form)) && order == |FirstDefs(before + form)|
  {
    defs, order := defs0, order0;
    ghost var seen, ds := before, FirstDefs(before);
    for j := 0 to |form|
      invariant seen == before + form[..j]
      invariant ds == FirstDefs(seen)
      invariant Indexes(defs, ds) && order == |ds|
    {
      var q := form[j];
      AppendNext(before, form, j);
      FirstDefsSnoc(seen, q);
      IndexesSnoc(defs, ds, q);
      seen, ds := seen + [q], WithDef(ds, q);
      if q.id !in defs {
        defs, order := defs[q.id := Def(q, order)], order + 1;
      }
    }
    assert form[..|form|] == form;
  }

  lemma FlatStep<T>(xss: seq<seq<T>>, i: nat)
    requires i < |xss|
    ensures Flat(xss[..i + 1]) == Flat(xss[..i]) + xss[i]
  {
    assert xss[..i + 1][..i] == xss[..i];
  }

  function StatOf(stats: map<string, QuestionStat>, d: Question): QuestionStat {
    if d.id in stats then stats[d.id] else EmptyStat(d)
  }

  method CountAnswer(d: Question, st: QuestionStat, o: Overall, a: Answer) returns (st': QuestionStat, o': Overall)
    requires a.questionId == d.id
    requires d.kind.Rating? ==> |st.distribution| == d.scale
    ensures st' == AddAnswer(d, st, a) && o' == AddOverall(d, o, a)
  {
    st', o' := st, o;
    match d.kind {
      case Rating =>
        if a.rating.Some? && a.rating.value >= 1 && a.rating.value <= d.scale {
          var k := a.rating.value - 1;
          st' := st'.(responses := st'.responses + 1,
                      average := st'.average + a.rating.value as real,
                      distribution := st'.distribution[k := st'.distribution[k] + 1]);
          o' := o'.(ratingSum := o'.ratingSum + a.rating.value as real / d.scale as real * 5.0, ratingN := o'.ratingN + 1);
        }
      case NPS =>
        if a.rating.Some? && a.rating.value >= 0 && a.rating.value <= 10 {
          st' := st'.(responses := st'.responses + 1, average := st'.average + a.rating.value as real);
          o' := o'.(npsN := o'.npsN + 1);
          if a.rating.value >= 9 {
            o' := o'.(promoters := o'.promoters + 1);
          } else if a.rating.value <= 6 {
            o' := o'.(detractors := o'.detractors + 1);
          }
        }
      case Choice =>
        if |a.choice| > 0 {
          st' := st'.(responses := st'.responses + 1);
          for j := 0 to |a.choice|
            invariant st' == st.(responses := st.responses + 1, choices := Bump(st.choices, a.choice[..j]))
          {
            assert a.choice[..j + 1][..j] == a.choice[..j];
            var c := a.choice[j];
            st' := st'.(choices := st'.choices[c := Tally(st'.choices, c) + 1]);
          }
          assert a.choice[..|a.choice|] == a.choice;
        }
      case FreeText =>
        var t := TrimSpace(a.text);
        if t != "" {
          st' := st'.(responses := st'.responses + 1, texts := st'.texts + [t]);
        }
      case Other(_) =>
    }
  }

  /** The statistics agree with the answers seen so far. */
  ghost predicate Follows(ds: seq<Question>, stats: map<string, QuestionStat>, answers: seq<Answer>) {
    && stats.Keys <= Ids(ds)
    && forall k :: 0 <= k < |ds| ==> StatOf(stats, ds[k]) == Accumulated(ds[k], answers)
  }

  method CountAnswers(defs: map<string, Def>, ghost ds: seq<Question>, subs: seq<seq<Answer>>)
    returns (stats: map<string, QuestionStat>, o: Overall)
    requires Indexes(defs, ds) && Makeable(ds)
    ensures Follows(ds, stats, Flat(subs)) && o == OverallOf(ds, Flat(subs))
  {
    stats, o := map[], Overall(0.0, 0, 0, 0, 0);
    for i := 0 to |subs|
      invariant Follows(ds, stats, Flat(subs[..i])) && o == OverallOf(ds, Flat(subs[..i]))
    {
      FlatStep(subs, i);
      stats, o := CountSubmission(defs, ds, stats, o, subs[i], Flat(subs[..i]));
    }
    assert subs[..|subs|] == subs;
  }

  /** The inner loop, over the answers of one submission. */
  method CountSubmission(defs: map<string, Def>, ghost ds: seq<Question>, stats0: map<string, QuestionStat>, o0: Overall,
                         sub: seq<Answer>, ghost before: seq<Answer>)
    returns (stats: map<string, QuestionStat>, o: Overall)
    requires Indexes(defs, ds) && Makeable(ds)
    requires Follows(ds, stats0, before) && o0 == OverallOf(ds, before)
    ensures Follows(ds, stats, before + sub) && o == OverallOf(ds, before + sub)
  {
    stats, o := stats0, o0;
    assert before + sub[..0] == before;
    for j := 0 to |sub|
      invariant Follows(ds, stats, before + sub[..j]) && o == OverallOf(ds, before + sub[..j])
    {
      ghost var seen := before + sub[..j];
      var a := sub[j];
      AppendNext(before, sub, j);
      if a.questionId in defs {
        var d := defs[a.questionId].q;
        KnownDef(defs, ds, a.questionId, stats, seen);
        DistributionSize(d, seen);
        var st, o' := CountAnswer(d, StatOf(stats, d), o, a);
        OneStatChanges(ds, stats, seen, a, d, st);
        stats, o := stats[a.questionId := st], o';
      } else {
        NoStatChanges(ds, stats, seen, a);
      }
    }
    assert sub[..|sub|] == sub;
  }

  /** No scale is one that `make` would panic on. */
  ghost predicate Makeable(ds: seq<Question>) {
    forall d :: d in ds && d.kind.Rating? ==> d.scale >= 0
  }

  lemma KnownDef(defs: map<string, Def>, ds: seq<Question>, id: string, stats: map<string, QuestionStat>, seen: seq<Answer>)
    requires Indexes(defs, ds) && id in defs && Follows(ds, stats, seen)
    ensures defs[id].q in ds && defs[id].q.id == id
    ensures StatOf(stats, defs[id].q) == Accumulated(defs[id].q, seen)
  {
    var k := IdAt(ds, id);
  }

  lemma OneStatChanges(ds: seq<Question>, stats: map<string, QuestionStat>, seen: seq<Answer>, a: Answer,
                       d: Question, st: QuestionStat)
    requires DistinctIds(ds) && d in ds && d.id == a.questionId
    requires Follows(ds, stats, seen) && st == AddAnswer(d, StatOf(stats, d), a)
    ensures Follows(ds, stats[d.id := st], seen + [a])
    ensures OverallOf(ds, seen + [a]) == AddOverall(d, OverallOf(ds, seen), a)
  {
    var i :| 0 <= i < |ds| && ds[i] == d;
    IdsHold(ds, i);
    FindDefFinds(ds, i);
    assert (seen + [a])[..|seen|] == seen;
    forall k | 0 <= k < |ds| ensures StatOf(stats[d.id := st], ds[k]) == Accumulated(ds[k], seen + [a]) {
      assert k != i ==> ds[k].id != ds[i].id;
    }
  }

  lemma NoStatChanges(ds: seq<Question>, stats: map<string, QuestionStat>, seen: seq<Answer>, a: Answer)
    requires a.questionId !in Ids(ds) && Follows(ds, stats, seen)
    ensures Follows(ds, stats, seen + [a])
    ensures OverallOf(ds, seen + [a]) == OverallOf(ds, seen)
  {
    FindDefMisses(ds, a.questionId);
    assert (seen + [a])[..|seen|] == seen;
    forall k | 0 <= k < |ds| ensures ds[k].id != a.questionId {
      IdsHold(ds, k);
    }
  }

  lemma {:induction false} FindDefFinds(ds: seq<Question>, k: nat)
    requires DistinctIds(ds) && k < |ds|
    ensures FindDef(ds, ds[k].id) == Some(ds[k])
  {
    if k < |ds| - 1 {
      FindDefFinds(ds[..|ds| - 1], k);
    }
  }

  lemma {:induction false} FindDefMisses(ds: seq<Question>, id: string)
    ensures id !in Ids(ds) <==> FindDef(ds, id).None?
    ensures id in Ids(ds) ==> FindDef(ds, id).value in ds && FindDef(ds, id).value.id == id
  {
    if ds != [] {
      FindDefMisses(ds[..|ds| - 1], id);
    }
  }

  lemma {:induction false} DistributionSize(d: Question, answers: seq<Answer>)
    ensures d.kind.Rating? && d.scale >= 0 ==> |Accumulated(d, answers).distribution| == d.scale
    ensures Accumulated(d, answers).kind == d.kind
  {
    if answers != [] {
      DistributionSize(d, answers[..|answers| - 1]);
    }
  }

  method Finish(stats: map<string, QuestionStat>, ghost ds: seq<Question>, ghost answers: seq<Answer>)
    returns (done: map<string, QuestionStat>)
    requires Follows(ds, stats, answers)
    ensures forall k :: 0 <= k < |ds| ==> StatOf(done, ds[k]) == Finished(ds[k], Accumulated(ds[k], answers))
  {
    done := stats;
    var todo := stats.Keys;
    while todo != {}
      invariant todo <= stats.Keys == done.Keys
      invariant forall id :: id in stats ==> done[id] == if id in todo then stats[id] else Rounded(stats[id])
      decreases |todo|
    {
      var id :| id in todo;
      todo := todo - {id};
      var st := done[id];
      if st.responses > 0 && (st.kind.Rating? || st.kind.NPS?) {
        done := done[id := st.(average := Round1(st.average / st.responses as real))];
      }
    }
    forall k | 0 <= k < |ds| ensures StatOf(done, ds[k]) == Finished(ds[k], Accumulated(ds[k], answers)) {
      DistributionSize(ds[k], answers);
    }
  }

  function Rounded(st: QuestionStat): QuestionStat {
    if st.responses > 0 && (st.kind.Rating? || st.kind.NPS?)
    then st.(average := Round1(st.average / st.responses as real)) else st
  }

  /** Questions nobody answered get an empty entry. */
  method AddMissing(defs: map<string, Def>, stats: map<string, QuestionStat>, ghost ds: seq<Question>)
    returns (all: map<string, QuestionStat>)
    requires Indexes(defs, ds)
    ensures forall k :: 0 <= k < |ds| ==> ds[k].id in all && all[ds[k].id] == StatOf(stats, ds[k])
  {
    all := stats;
    var todo := defs.Keys;
    while todo != {}
      invariant todo <= defs.Keys
      invariant forall id :: id in stats ==> id in all && all[id] == stats[id]
      invariant forall id :: id in defs && id !in stats && id in all ==> all[id] == EmptyStat(defs[id].q)
      invariant forall id :: id in defs && id !in todo ==> id in all
      decreases |todo|
    {
      var id :| id in todo;
      todo := todo - {id};
      if id !in all {
        all := all[id := EmptyStat(defs[id].q)];
      }
    }
  }

  /** The statistics in definition order. */
  method InOrder(defs: map<string, Def>, all: map<string, QuestionStat>, ghost ds: seq<Question>)
    returns (ordered: seq<QuestionStat>)
    requires Indexes(defs, ds)
    requires forall k :: 0 <= k < |ds| ==> ds[k].id in all
    ensures |ordered| == |ds|
    ensures forall k :: 0 <= k < |ds| ==> ordered[k] == all[ds[k].id]
  {
    DistinctCount(ds);
    var idsByOrder := new string[|defs|];
    var todo := defs.Keys;
    while todo != {}
      invariant todo <= defs.Keys
      invariant forall k :: 0 <= k < |ds| && ds[k].id !in todo ==> idsByOrder[k] == ds[k].id
      decreases |todo|
    {
      var id :| id in todo;
      todo := todo - {id};
      ghost var k := IdAt(ds, id);
      idsByOrder[defs[id].order] := id;
    }
    ordered := [];
    for k := 0 to idsByOrder.Length
      invariant |ordered| == k
      invariant forall j :: 0 <= j < k ==> ordered[j] == all[ds[j].id]
    {
      ordered := ordered + [all[idsByOrder[k]]];
    }
  }

  lemma {:induction false} DistinctCount(ds: seq<Question>)
    requires DistinctIds(ds)
    ensures |Ids(ds)| == |ds|
  {
    if ds != [] {
      var n := |ds| - 1;
      DistinctCount(ds[..n]);
      if ds[n].id in Ids(ds[..n]) {
        var k := IdAt(ds[..n], ds[n].id);
      }
    }
  }

  /** `make([]int, scale)` panics on a negative scale; nothing else can fault. */
  method Aggregate(forms: seq<seq<Question>>, subs: seq<seq<Answer>>) returns (a: FormAnalytics)
    requires Makeable(FirstDefs(Flat(forms)))
    ensures a == Analysis(forms, subs)
  {
    ghost var ds := FirstDefs(Flat(forms));
    var defs := CollectDefinitions(forms);
    var stats, o := CountAnswers(defs, ds, subs);
    stats := Finish(stats, ds, Flat(subs));
    stats := AddMissing(defs, stats, ds);
    var ordered := InOrder(defs, stats, ds);
    assert ordered == QuestionStats(ds, Flat(subs));
    a := FormAnalytics(|forms|, |subs|, 0.0, 0, ordered);
    if o.ratingN > 0 {
      a := a.(avgRating := Round1(o.ratingSum / o.ratingN as real));
    }
    if o.npsN > 0 {
      a := a.(nps := TruncDiv(o.promoters * 100 - o.detractors * 100, o.npsN));
    }
  }
}
