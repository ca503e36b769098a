/** Checking a client's answers against the questions of a form. */
module Answers {
  import opened Text
  import opened FeedbackDomain
  import opened Questions

  datatype AnswerError = OutOfRange(caption: string) | UnknownOption(caption: string)
                       | TooManyOptions(caption: string) | Unanswered(caption: string)

  const NO_ANSWER := Answer("", "", None, [])

  /** The last answer given for `id`, or the zero answer. */
  function Given(given: seq<Answer>, id: string): Option<Answer> {
    if given == [] then None
    else
      var n := |given| - 1;
      if given[n].questionId == id then Some(given[n]) else Given(given[..n], id)
  }

  /** The value of the answer is one the question admits. */
  ghost predicate InRange(q: Question, a: Answer) {
    match q.kind
    case Rating => a.rating.Some? ==> 1 <= a.rating.value <= q.scale
    case NPS => a.rating.Some? ==> 0 <= a.rating.value <= 10
    case Choice => (forall c :: c in a.choice ==> c in q.options) && (q.multiple || |a.choice| <= 1)
    case _ => true
  }

  /** The answer says something. */
  predicate Says(q: Question, a: Answer) {
    match q.kind
    case FreeText => !Blank(a.text)
    case Rating => a.rating.Some?
    case NPS => a.rating.Some?
    case Choice => a.choice != []
    case Other(_) => false
  }

  /** Only the field of the question's own type is kept. */
  function Cleaned(q: Question, a: Answer): Answer {
    match q.kind
    case FreeText => Answer(q.id, TrimSpace(a.text), None, [])
    case Rating => Answer(q.id, "", a.rating, [])
    case NPS => Answer(q.id, "", a.rating, [])
    case Choice => Answer(q.id, "", None, a.choice)
    case Other(_) => a.(questionId := q.id)
  }

  function RangeError(q: Question, a: Answer): Option<AnswerError> {
    match q.kind
    case Rating => if a.rating.Some? && !(1 <= a.rating.value <= q.scale) then Some(OutOfRange(q.caption)) else None
    case NPS => if a.rating.Some? && !(0 <= a.rating.value <= 10) then Some(OutOfRange(q.caption)) else None
    case Choice =>
      if exists i :: 0 <= i < |a.choice| && a.choice[i] !in q.options then Some(UnknownOption(q.caption))
      else if !q.multiple && |a.choice| > 1 then Some(TooManyOptions(q.caption))
      else None
    case _ => None
  }

  /** The verdict on one question: an error, or the answer to store, if any. */
  function Check(q: Question, a: Option<Answer>): Result<Option<Answer>, AnswerError> {
    var v := if a.Some? then a.value else NO_ANSWER;
    if RangeError(q, v).Some? then Err(RangeError(q, v).value)
    else if q.required && !Says(q, v) then Err(Unanswered(q.caption))
    else if a.Some? || Says(q, v) then Ok(Some(Cleaned(q, v)))
    else Ok(None)
  }

  function CheckAll(qs: seq<Question>, given: seq<Answer>): Result<seq<Answer>, AnswerError> {
    if qs == [] then Ok([])
    else
      var n := |qs| - 1;
      match CheckAll(qs[..n], given)
      case Err(e) => Err(e)
      case Ok(out) =>
        match Check(qs[n], Given(given, qs[n].id))
        case Err(e) => Err(e)
        case Ok(stored) => Ok(out + AsSeq(stored))
  }

  function AsSeq<T>(o: Option<T>): seq<T> {
    match o
    case None => []
    case Some(x) => [x]
  }

  /** The answers by question ID; of several for one question the last one stays. */
  method ByQuestion(given: seq<Answer>) returns (m: map<string, Answer>)
    ensures forall id :: Given(given, id) == if id in m then Some(m[id]) else None
  {
    m := map[];
    for i := 0 to |given|
      invariant forall id :: Given(given[..i], id) == if id in m then Some(m[id]) else None
    {
      assert given[..i + 1][..i] == given[..i];
      m := m[given[i].questionId := given[i]];
    }
    assert given[..|given|] == given;
  }

  /** The inner loop over the picked options. */
  method AllKnown(choice: seq<string>, options: seq<string>) returns (known: bool)
    ensures known <==> forall i :: 0 <= i < |choice| ==> choice[i] in options
  {
    for i := 0 to |choice|
      invariant forall k :: 0 <= k < i ==> choice[k] in options
    {
      if choice[i] !in options {
        return false;
      }
    }
    return true;
  }

  /** The loop's work on one question: `a` is the answer given, or the zero answer. */
  method CheckOne(q: Question, present: bool, a0: Answer) returns (r: Result<Option<Answer>, AnswerError>)
    requires !present ==> a0 == NO_ANSWER
    ensures r == Check(q, if present then Some(a0) else None)
  {
    var a := a0;
    var answered := false;
    match q.kind {
      case FreeText =>
        a := a.(text := TrimSpace(a.text));
        answered := a.text != "";
        a := a.(rating := None, choice := []);
      case Rating =>
        if a.rating.Some? {
          if a.rating.value < 1 || a.rating.value > q.scale {
            return Err(OutOfRange(q.caption));
          }
          answered := true;
        }
        a := a.(text := "", choice := []);
      case NPS =>
        if a.rating.Some? {
          if a.rating.value < 0 || a.rating.value > 10 {
            return Err(OutOfRange(q.caption));
          }
          answered := true;
        }
        a := a.(text := "", choice := []);
      case Choice =>
        var known := AllKnown(a.choice, q.options);
        if !known {
          return Err(UnknownOption(q.caption));
        }
        if !q.multiple && |a.choice| > 1 {
          return Err(TooManyOptions(q.caption));
        }
        answered := |a.choice| > 0;
        a := a.(text := "", rating := None);
      case Other(_) =>
    }
    if q.required && !answered {
      return Err(Unanswered(q.caption));
    }
    if present || answered {
      a := a.(questionId := q.id);
      return Ok(Some(a));
    }
    return Ok(None);
  }

  method ValidateAnswers(qs: seq<Question>, given: seq<Answer>) returns (r: Result<seq<Answer>, AnswerError>)
    ensures r == CheckAll(qs, given)
  {
    var byQuestion := ByQuestion(given);
    var out: seq<Answer> := [];
    for i := 0 to |qs|
      invariant CheckAll(qs[..i], given) == Ok(out)
    {
      assert qs[..i + 1][..i] == qs[..i];
      if CheckAll(qs[..i + 1], given).Err? {
        FirstErrorStays(qs, i + 1, given);
      }
      var q := qs[i];
      var present := q.id in byQuestion;
      var stored := CheckOne(q, present, if present then byQuestion[q.id] else NO_ANSWER);
      if stored.Err? {
        return Err(stored.error);
      }
      out := out + AsSeq(stored.value);
    }
    assert qs[..|qs|] == qs;
    return Ok(out);
  }

  lemma {:induction false} FirstErrorStays(qs: seq<Question>, n: nat, given: seq<Answer>)
    requires n <= |qs| && CheckAll(qs[..n], given).Err?
    ensures CheckAll(qs, given) == CheckAll(qs[..n], given)
  {
    if n < |qs| {
      var m := |qs| - 1;
      assert qs[..m][..n] == qs[..n];
      FirstErrorStays(qs[..m], n, given);
    } else {
      assert qs[..n] == qs;
    }
  }

  // ----- what validation promises -----

  /** What the check looks at for one question. */
  function ValueFor(given: seq<Answer>, id: string): Answer {
    if Given(given, id).Some? then Given(given, id).value else NO_ANSWER
  }

  /** Answers are accepted exactly when each is in range and no required question is left out. */
  lemma {:induction false} AcceptedIff(qs: seq<Question>, given: seq<Answer>)
    ensures CheckAll(qs, given).Ok? <==>
            forall q :: q in qs ==> InRange(q, ValueFor(given, q.id)) && (q.required ==> Says(q, ValueFor(given, q.id)))
  {
    if qs != [] {
      var n := |qs| - 1;
      AcceptedIff(qs[..n], given);
      RangeErrorIff(qs[n], ValueFor(given, qs[n].id));
      assert qs == qs[..n] + [qs[n]];
    }
  }

  lemma RangeErrorIff(q: Question, a: Answer)
    ensures RangeError(q, a).None? <==> InRange(q, a)
  {
    if q.kind.Choice? {
      assert (exists i :: 0 <= i < |a.choice| && a.choice[i] !in q.options) <==> !(forall c :: c in a.choice ==> c in q.options);
    }
  }

  /** The position in the form of each stored answer's question. */
  ghost predicate FollowsForm(qs: seq<Question>, out: seq<Answer>, at: seq<nat>) {
    && |at| == |out|
    && (forall k :: 0 <= k < |at| ==> at[k] < |qs| && out[k].questionId == qs[at[k]].id && InRange(qs[at[k]], out[k])
                                      && Cleaned(qs[at[k]], out[k]) == out[k])
    && (forall j, k :: 0 <= j < k < |at| ==> at[j] < at[k])
  }

  lemma CheckedIsClean(q: Question, a: Option<Answer>)
    requires Check(q, a).Ok?
    ensures q.required ==> Check(q, a).value.Some? && Says(q, Check(q, a).value.value)
    ensures Check(q, a).value.Some? ==>
              var c := Check(q, a).value.value;
              c.questionId == q.id && InRange(q, c) && Cleaned(q, c) == c && Check(q, Some(c)) == Ok(Some(c))
    ensures Check(q, a).value.None? ==> Check(q, None) == Ok(None)
  {
    var v := if a.Some? then a.value else NO_ANSWER;
    TrimIsTrimmed(v.text);
  }

  /** Accepted answers follow the form: in question order, at most one per question, each
      in range and stripped to the field of its type. */
  lemma {:induction false} AcceptedFollowsForm(qs: seq<Question>, given: seq<Answer>) returns (at: seq<nat>)
    requires CheckAll(qs, given).Ok?
    ensures FollowsForm(qs, CheckAll(qs, given).value, at)
  {
    if qs == [] {
      at := [];
    } else {
      var n := |qs| - 1;
      at := AcceptedFollowsForm(qs[..n], given);
      CheckedIsClean(qs[n], Given(given, qs[n].id));
      at := FollowsSnoc(qs[..n], CheckAll(qs[..n], given).value, at, qs[n], Check(qs[n], Given(given, qs[n].id)).value);
      assert qs == qs[..n] + [qs[n]];
    }
  }

  lemma FollowsSnoc(qs: seq<Question>, out: seq<Answer>, at: seq<nat>, q: Question, stored: Option<Answer>) returns (at': seq<nat>)
    requires FollowsForm(qs, out, at)
    requires stored.Some? ==> stored.value.questionId == q.id && InRange(q, stored.value) && Cleaned(q, stored.value) == stored.value
    ensures FollowsForm(qs + [q], out + AsSeq(stored), at')
  {
    at' := if stored.Some? then at + [|qs|] else at;
  }

  /** The answer given for an ID is the last one that carries it. */
  lemma {:induction false} GivenIsLast(given: seq<Answer>, id: string) returns (k: nat)
    ensures Given(given, id).Some? <==> GivenFor(given, id)
    ensures Given(given, id).Some? ==>
              && k < |given| && given[k] == ValueFor(given, id) && given[k].questionId == id
              && forall j :: k < j < |given| ==> given[j].questionId != id
  {
    k := 0;
    if given != [] {
      var n := |given| - 1;
      assert given == given[..n] + [given[n]];
      if given[n].questionId == id {
        k := n;
      } else {
        k := GivenIsLast(given[..n], id);
      }
    }
  }

  /** The answer carries the question's ID and, of the value given, the field of the question's
      type and nothing else. An unknown type keeps every field. */
  ghost predicate HoldsValue(q: Question, v: Answer, a: Answer) {
    && a.questionId == q.id
    && match q.kind
       case FreeText => a.text == TrimSpace(v.text) && a.rating == None && a.choice == []
       case Rating => a.text == "" && a.rating == v.rating && a.choice == []
       case NPS => a.text == "" && a.rating == v.rating && a.choice == []
       case Choice => a.text == "" && a.rating == None && a.choice == v.choice
       case Other(_) => a.text == v.text && a.rating == v.rating && a.choice == v.choice
  }

  /** An answer was given under the ID. */
  ghost predicate GivenFor(given: seq<Answer>, id: string) {
    exists a :: a in given && a.questionId == id
  }

  /** `at` gives the question each stored answer is for, in question order: each answer holds the
      value given last for that question. */
  ghost predicate HoldsAt(qs: seq<Question>, given: seq<Answer>, out: seq<Answer>, at: seq<nat>) {
    && |at| == |out|
    && (forall k :: 0 <= k < |at| ==> at[k] < |qs| && HoldsValue(qs[at[k]], ValueFor(given, qs[at[k]].id), out[k]))
    && (forall j, k :: 0 <= j < k < |at| ==> at[j] < at[k])
  }

  /** The places are those of the questions that were answered. */
  ghost predicate PlacesGiven(qs: seq<Question>, given: seq<Answer>, at: seq<nat>) {
    forall i :: 0 <= i < |qs| ==> (i in at <==> GivenFor(given, qs[i].id))
  }

  lemma CheckHoldsValue(q: Question, given: seq<Answer>)
    requires Check(q, Given(given, q.id)).Ok?
    ensures var stored := Check(q, Given(given, q.id)).value;
            && (stored.Some? <==> GivenFor(given, q.id))
            && (stored.Some? ==> HoldsValue(q, ValueFor(given, q.id), stored.value))
  {
    StoredIffGiven(q, Given(given, q.id));
    var _ := GivenIsLast(given, q.id);
  }

  lemma HoldsSnoc(init: seq<Question>, qs: seq<Question>, given: seq<Answer>, out: seq<Answer>, at: seq<nat>, a: Answer)
    requires init <= qs && |qs| == |init| + 1 && HoldsAt(init, given, out, at)
    requires HoldsValue(qs[|init|], ValueFor(given, qs[|init|].id), a)
    ensures HoldsAt(qs, given, out + [a], at + [|init|])
  {
  }

  lemma PlacesSnoc(init: seq<Question>, qs: seq<Question>, given: seq<Answer>, at: seq<nat>, stored: bool)
    requires init <= qs && |qs| == |init| + 1 && PlacesGiven(init, given, at)
    requires forall k :: 0 <= k < |at| ==> at[k] < |init|
    requires stored <==> GivenFor(given, qs[|init|].id)
    ensures PlacesGiven(qs, given, if stored then at + [|init|] else at)
  {
    assert |init| !in at;
  }

  /** An accepted submission is stored as it was given: exactly the questions that were answered
      have an answer, each with its own value, trimmed if it is text. */
  lemma {:induction false} StoredAsGiven(qs: seq<Question>, given: seq<Answer>) returns (at: seq<nat>)
    requires CheckAll(qs, given).Ok?
    ensures HoldsAt(qs, given, CheckAll(qs, given).value, at) && PlacesGiven(qs, given, at)
  {
    if qs == [] {
      at := [];
    } else {
      var n := |qs| - 1;
      var before := StoredAsGiven(qs[..n], given);
      CheckHoldsValue(qs[n], given);
      var stored := Check(qs[n], Given(given, qs[n].id)).value;
      at := if stored.Some? then before + [n] else before;
      PlacesSnoc(qs[..n], qs, given, before, stored.Some?);
      if stored.Some? {
        HoldsSnoc(qs[..n], qs, given, CheckAll(qs[..n], given).value, before, stored.value);
      }
    }
  }

  /** The reason names the question and is the first that applies to the value. */
  ghost predicate Refuses(q: Question, v: Answer, e: AnswerError) {
    && e.caption == q.caption
    && match e
       case OutOfRange(_) => (q.kind.Rating? || q.kind.NPS?) && !InRange(q, v)
       case UnknownOption(_) => q.kind.Choice? && exists c :: c in v.choice && c !in q.options
       case TooManyOptions(_) => q.kind.Choice? && (forall c :: c in v.choice ==> c in q.options) && !q.multiple && |v.choice| > 1
       case Unanswered(_) => InRange(q, v) && q.required && !Says(q, v)
  }

  lemma CheckRefuses(q: Question, a: Option<Answer>)
    requires Check(q, a).Err?
    ensures Refuses(q, if a.Some? then a.value else NO_ANSWER, Check(q, a).error)
  {
    var v := if a.Some? then a.value else NO_ANSWER;
    RangeErrorIff(q, v);
    if q.kind.Choice? {
      assert (exists i :: 0 <= i < |v.choice| && v.choice[i] !in q.options) <==> exists c :: c in v.choice && c !in q.options;
    }
  }

  /** A refusal is about the first question whose value is refused. */
  lemma {:induction false} FirstRefusal(qs: seq<Question>, given: seq<Answer>) returns (i: nat)
    requires CheckAll(qs, given).Err?
    ensures i < |qs| && CheckAll(qs[..i], given).Ok?
    ensures Refuses(qs[i], ValueFor(given, qs[i].id), CheckAll(qs, given).error)
  {
    var n := |qs| - 1;
    if CheckAll(qs[..n], given).Err? {
      i := FirstRefusal(qs[..n], given);
      assert qs[..n][..i] == qs[..i];
    } else {
      i := n;
      CheckRefuses(qs[n], Given(given, qs[n].id));
    }
  }

  /** Each required question has an accepted answer that says something. */
  lemma {:induction false} RequiredIsAnswered(qs: seq<Question>, given: seq<Answer>, i: nat) returns (k: nat)
    requires CheckAll(qs, given).Ok? && i < |qs| && qs[i].required
    ensures k < |CheckAll(qs, given).value|
    ensures var a := CheckAll(qs, given).value[k]; a.questionId == qs[i].id && Says(qs[i], a)
  {
    var n := |qs| - 1;
    CheckedIsClean(qs[n], Given(given, qs[n].id));
    if i < n {
      k := RequiredIsAnswered(qs[..n], given, i);
    } else {
      k := |CheckAll(qs[..n], given).value|;
    }
  }

  lemma {:induction false} GivenAppend(a: seq<Answer>, b: seq<Answer>, id: string)
    ensures Given(a + b, id) == if Given(b, id).Some? then Given(b, id) else Given(a, id)
  {
    if b == [] {
      assert a + b == a;
    } else {
      GivenAppend(a, b[..|b| - 1], id);
      assert (a + b)[..|a + b| - 1] == a + b[..|b| - 1];
    }
  }

  lemma GivenSingle(o: Option<Answer>, id: string)
    ensures Given(AsSeq(o), id) == if o.Some? && o.value.questionId == id then o else None
  {
    assert o.Some? ==> AsSeq(o)[..0] == [];
  }

  /** The answer stored for the last question comes after the ones stored before it. */
  lemma GivenLast(qs: seq<Question>, given: seq<Answer>, id: string)
    requires qs != [] && CheckAll(qs, given).Ok?
    ensures var n := |qs| - 1;
            var last := Check(qs[n], Given(given, qs[n].id)).value;
            Given(CheckAll(qs, given).value, id)
            == if qs[n].id == id && last.Some? then last else Given(CheckAll(qs[..n], given).value, id)
  {
    var n := |qs| - 1;
    var last := Check(qs[n], Given(given, qs[n].id)).value;
    CheckedIsClean(qs[n], Given(given, qs[n].id));
    GivenAppend(CheckAll(qs[..n], given).value, AsSeq(last), id);
    GivenSingle(last, id);
  }

  /** Something is stored for a question exactly when something was given for it. */
  lemma StoredIffGiven(q: Question, a: Option<Answer>)
    requires Check(q, a).Ok?
    ensures Check(q, a).value == if a.Some? then Some(Cleaned(q, a.value)) else None
  {
    TrimBare("", IsSpace);
  }

  lemma {:induction false} NothingStored(qs: seq<Question>, given: seq<Answer>, id: string)
    requires CheckAll(qs, given).Ok? && Given(given, id).None?
    ensures Given(CheckAll(qs, given).value, id) == None
  {
    if qs != [] {
      NothingStored(qs[..|qs| - 1], given, id);
      GivenLast(qs, given, id);
      StoredIffGiven(qs[|qs| - 1], Given(given, qs[|qs| - 1].id));
    }
  }

  /** The last question of the form that shares the ID of `q`. */
  function LastNamesake(qs: seq<Question>, q: Question): (last: Question)
    ensures last.id == q.id
  {
    if qs == [] then q
    else if qs[|qs| - 1].id == q.id then qs[|qs| - 1]
    else LastNamesake(qs[..|qs| - 1], q)
  }

  /** Among the accepted answers, the one found for a question is what its last namesake kept. */
  lemma {:induction false} GivenAccepted(qs: seq<Question>, given: seq<Answer>, i: nat)
    requires CheckAll(qs, given).Ok? && i < |qs|
    ensures var id := qs[i].id;
            Given(CheckAll(qs, given).value, id)
            == if Given(given, id).Some? then Some(Cleaned(LastNamesake(qs, qs[i]), Given(given, id).value)) else None
  {
    var n := |qs| - 1;
    var id := qs[i].id;
    if Given(given, id).None? {
      NothingStored(qs, given, id);
    } else {
      GivenLast(qs, given, id);
      StoredIffGiven(qs[n], Given(given, qs[n].id));
      if qs[n].id != id {
        GivenAccepted(qs[..n], given, i);
      }
    }
  }

  /** A second look at what the namesake kept agrees with the first exactly when nothing that `q`
      keeps was dropped. */
  lemma RecheckIff(q: Question, last: Question, v: Answer)
    requires Check(q, Some(v)).Ok? && last.id == q.id
    ensures Check(q, Some(Cleaned(last, v))) == Check(q, Some(v)) <==> Cleaned(q, Cleaned(last, v)) == Cleaned(q, v)
  {
    TrimIsTrimmed(v.text);
    StoredIffGiven(q, Some(v));
    if Check(q, Some(Cleaned(last, v))).Ok? {
      StoredIffGiven(q, Some(Cleaned(last, v)));
    }
  }

  /** Two submissions that answer the same questions give the same result exactly when they give
      the same verdict on each question. */
  lemma {:induction false} SameVerdicts(qs: seq<Question>, given: seq<Answer>, other: seq<Answer>)
    requires CheckAll(qs, given).Ok?
    requires forall i :: 0 <= i < |qs| ==> (Given(other, qs[i].id).Some? <==> Given(given, qs[i].id).Some?)
    ensures CheckAll(qs, other) == CheckAll(qs, given) <==> AgreeOn(qs, given, other)
  {
    if qs != [] {
      var n := |qs| - 1;
      SameVerdicts(qs[..n], given, other);
      AgreeSnoc(qs, given, other);
      StoredIffGiven(qs[n], Given(given, qs[n].id));
      if CheckAll(qs, other).Ok? {
        StoredIffGiven(qs[n], Given(other, qs[n].id));
        SplitStored(CheckAll(qs[..n], given).value, Check(qs[n], Given(given, qs[n].id)).value,
                    CheckAll(qs[..n], other).value, Check(qs[n], Given(other, qs[n].id)).value);
      }
    }
  }

  ghost predicate AgreeOn(qs: seq<Question>, given: seq<Answer>, other: seq<Answer>) {
    forall i :: 0 <= i < |qs| ==> Check(qs[i], Given(other, qs[i].id)) == Check(qs[i], Given(given, qs[i].id))
  }

  lemma AgreeSnoc(qs: seq<Question>, given: seq<Answer>, other: seq<Answer>)
    requires qs != []
    ensures var n := |qs| - 1;
            AgreeOn(qs, given, other) <==>
              AgreeOn(qs[..n], given, other) && Check(qs[n], Given(other, qs[n].id)) == Check(qs[n], Given(given, qs[n].id))
  {
    var init := qs[..|qs| - 1];
    assert forall i :: 0 <= i < |init| ==> init[i] == qs[i];
  }

  lemma SplitStored<T>(a: seq<T>, x: Option<T>, b: seq<T>, y: Option<T>)
    requires x.Some? <==> y.Some?
    ensures a + AsSeq(x) == b + AsSeq(y) <==> a == b && x == y
  {
    if a + AsSeq(x) == b + AsSeq(y) {
      assert a == (a + AsSeq(x))[..|a|] && b == (b + AsSeq(y))[..|b|];
      assert x.Some? ==> (a + AsSeq(x))[|a|] == x.value && (b + AsSeq(y))[|b|] == y.value;
    }
  }

  /** For every question that was answered, the last question with its ID drops nothing of the
      answer that this one keeps. */
  ghost predicate NamesakesAgree(qs: seq<Question>, given: seq<Answer>) {
    forall i :: 0 <= i < |qs| && Given(given, qs[i].id).Some? ==>
      var v := Given(given, qs[i].id).value;
      Cleaned(qs[i], Cleaned(LastNamesake(qs, qs[i]), v)) == Cleaned(qs[i], v)
  }

  /** Checking accepted answers again accepts them as they are, exactly when questions that share an
      ID agree on what they keep of the answers given. */
  lemma IdempotentIff(qs: seq<Question>, given: seq<Answer>)
    requires CheckAll(qs, given).Ok?
    ensures CheckAll(qs, CheckAll(qs, given).value) == CheckAll(qs, given) <==> NamesakesAgree(qs, given)
  {
    var out := CheckAll(qs, given).value;
    forall i | 0 <= i < |qs|
      ensures Given(out, qs[i].id).Some? <==> Given(given, qs[i].id).Some?
      ensures Check(qs[i], Given(out, qs[i].id)) == Check(qs[i], Given(given, qs[i].id)) <==>
                (Given(given, qs[i].id).Some? ==>
                   var v := Given(given, qs[i].id).value;
                   Cleaned(qs[i], Cleaned(LastNamesake(qs, qs[i]), v)) == Cleaned(qs[i], v))
    {
      GivenAccepted(qs, given, i);
      EachIsAccepted(qs, given, i);
      if Given(given, qs[i].id).Some? {
        RecheckIff(qs[i], LastNamesake(qs, qs[i]), Given(given, qs[i].id).value);
      }
    }
    SameVerdicts(qs, given, out);
  }

  lemma {:induction false} EachIsAccepted(qs: seq<Question>, given: seq<Answer>, i: nat)
    requires CheckAll(qs, given).Ok? && i < |qs|
    ensures Check(qs[i], Given(given, qs[i].id)).Ok?
  {
    if i < |qs| - 1 {
      EachIsAccepted(qs[..|qs| - 1], given, i);
    }
  }

  /** So with distinct IDs it always does. */
  lemma ValidationIdempotent(qs: seq<Question>, given: seq<Answer>)
    requires DistinctIds(qs) && CheckAll(qs, given).Ok?
    ensures CheckAll(qs, CheckAll(qs, given).value) == CheckAll(qs, given)
  {
    forall i | 0 <= i < |qs| && Given(given, qs[i].id).Some?
      ensures var v := Given(given, qs[i].id).value; Cleaned(qs[i], Cleaned(LastNamesake(qs, qs[i]), v)) == Cleaned(qs[i], v)
    {
      OwnNamesake(qs, i);
      TrimIsTrimmed(Given(given, qs[i].id).value.text);
    }
    IdempotentIff(qs, given);
  }

  lemma {:induction false} OwnNamesake(qs: seq<Question>, i: nat)
    requires DistinctIds(qs) && i < |qs|
    ensures LastNamesake(qs, qs[i]) == qs[i]
  {
    if i < |qs| - 1 {
      OwnNamesake(qs[..|qs| - 1], i);
    }
  }

  /** Questions that share an ID can disagree: here a rating, last, drops the text of its namesake,
      and the second check loses it. */
  lemma RepeatedIdsBreakIdempotence()
    ensures exists qs, given :: CheckAll(qs, given).Ok? && CheckAll(qs, CheckAll(qs, given).value) != CheckAll(qs, given)
  {
    var text := Question("x", FreeText, "Why", "", false, 0, [], false, "", "");
    var stars := text.(kind := Rating, scale := 5);
    var a := Answer("x", "good", Some(3), []);
    var first := [a.(rating := None), a.(text := "")];
    var second := [Answer("x", "", None, []), a.(text := "")];
    TrimBare("good", IsSpace);
    TrimBare("", IsSpace);
    CheckTwo(text, stars, [a]);
    CheckTwo(text, stars, first);
    assert Given([a], "x") == Some(a);
    assert Given(first, "x") == Some(first[1]);
    assert CheckAll([text, stars], [a]) == Ok(first);
    assert CheckAll([text, stars], first) == Ok(second);
    assert first[0].text != second[0].text;
  }

  lemma CheckTwo(p: Question, q: Question, given: seq<Answer>)
    requires Check(p, Given(given, p.id)).Ok? && Check(p, Given(given, p.id)).value.Some?
    requires Check(q, Given(given, q.id)).Ok? && Check(q, Given(given, q.id)).value.Some?
    ensures CheckAll([p, q], given) == Ok([Check(p, Given(given, p.id)).value.value, Check(q, Given(given, q.id)).value.value])
  {
    var one, two := [p], [p, q];
    assert one[..|one| - 1] == [] && two[..|two| - 1] == one;
    var a, b := Check(p, Given(given, p.id)).value.value, Check(q, Given(given, q.id)).value.value;
    assert [] + [a] == [a] && [a] + [b] == [a, b];
    assert CheckAll(one, given) == Ok([a]);
  }
}
