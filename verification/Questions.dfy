/** The question normaliser, the AI-suggestion sanitiser, and the rule that turns an
    AI reply into clarifying questions or suggested questions. */
module Questions {
  import opened Text
  import opened FeedbackDomain

  const DEFAULT_SCALE := 5
  const CONFIDENCE_THRESHOLD := 85
  const MAX_CLARIFYING := 4

  datatype QuestionError = MissingLabel | UnknownType | NoOptions

  function ClampScale(scale: int): int {
    if scale < 2 || scale > 10 then DEFAULT_SCALE else scale
  }

  predicate Blank(s: string) {
    TrimSpace(s) == ""
  }

  /** The options that are not blank, trimmed, in order. */
  function CleanOptions(options: seq<string>): seq<string> {
    if options == [] then []
    else
      var n := |options| - 1;
      CleanOptions(options[..n]) + (if Blank(options[n]) then [] else [TrimSpace(options[n])])
  }

  predicate Trimmed(s: string) {
    TrimSpace(s) == s
  }

  predicate CleanOption(s: string) {
    s != "" && Trimmed(s)
  }

  lemma TrimIsTrimmed(s: string)
    ensures Trimmed(TrimSpace(s))
  {
    TrimIdempotent(s, IsSpace);
  }

  lemma {:induction false} CleanOptionsAreClean(options: seq<string>)
    ensures forall o :: o in CleanOptions(options) ==> CleanOption(o)
    ensures CleanOptions(options) == [] <==> forall o :: o in options ==> Blank(o)
  {
    if options != [] {
      var n := |options| - 1;
      CleanOptionsAreClean(options[..n]);
      TrimIsTrimmed(options[n]);
      assert options == options[..n] + [options[n]];
    }
  }

  lemma {:induction false} CleanOptionsFixed(options: seq<string>)
    requires forall o :: o in options ==> CleanOption(o)
    ensures CleanOptions(options) == options
  {
    if options != [] {
      var n := |options| - 1;
      CleanOptionsFixed(options[..n]);
      assert CleanOption(options[n]);
      assert options == options[..n] + [options[n]];
    }
  }

  ghost function NonBlanks(options: seq<string>): nat {
    if options == [] then 0 else NonBlanks(options[..|options| - 1]) + if Blank(options[|options| - 1]) then 0 else 1
  }

  /** Option `i` is kept, trimmed, after the ones kept before it, unless it is blank. */
  ghost predicate KeepsOption(options: seq<string>, cleaned: seq<string>, i: nat)
    requires i < |options|
  {
    !Blank(options[i]) ==> NonBlanks(options[..i]) < |cleaned| && cleaned[NonBlanks(options[..i])] == TrimSpace(options[i])
  }

  /** `cleaned` is the options that are not blank, trimmed, in order. */
  ghost predicate KeepsOptions(options: seq<string>, cleaned: seq<string>) {
    |cleaned| == NonBlanks(options) && forall i :: 0 <= i < |options| ==> KeepsOption(options, cleaned, i)
  }

  lemma KeepsSnoc(init: seq<string>, options: seq<string>, before: seq<string>, cleaned: seq<string>, i: nat)
    requires init <= options && i < |init| && KeepsOption(init, before, i) && before <= cleaned
    ensures KeepsOption(options, cleaned, i)
  {
    assert init[..i] == options[..i];
  }

  lemma {:induction false} CleanOptionsKeep(options: seq<string>)
    ensures KeepsOptions(options, CleanOptions(options))
  {
    if options != [] {
      var n := |options| - 1;
      CleanOptionsKeep(options[..n]);
      forall i | 0 <= i < n ensures KeepsOption(options, CleanOptions(options), i) {
        KeepsSnoc(options[..n], options, CleanOptions(options[..n]), CleanOptions(options), i);
      }
    }
  }

  method CollectOptions(options: seq<string>) returns (cleaned: seq<string>)
    ensures cleaned == CleanOptions(options)
  {
    cleaned := [];
    for i := 0 to |options|
      invariant cleaned == CleanOptions(options[..i])
    {
      assert options[..i + 1][..i] == options[..i];
      var o := TrimSpace(options[i]);
      if o != "" {
        cleaned := cleaned + [o];
      }
    }
    assert options[..|options|] == options;
  }

  // ----- normalizeQuestions -----

  /** What the normaliser accepts. */
  ghost predicate Acceptable(q: Question) {
    && !Blank(q.caption)
    && q.kind.Valid()
    && (q.kind.Choice? ==> exists o :: o in q.options && !Blank(o))
  }

  /** The stored form of a question: what every later step may rely on. */
  ghost predicate Canonical(q: Question) {
    && q.id != ""
    && CleanOption(q.caption)
    && match q.kind
       case Rating => 2 <= q.scale <= 10 && q.options == [] && !q.multiple && Trimmed(q.minLabel) && Trimmed(q.maxLabel)
       case Choice => q.options != [] && (forall o :: o in q.options ==> CleanOption(o))
                      && q.scale == 0 && q.minLabel == "" && q.maxLabel == ""
       case NPS => q.scale == 0 && q.options == [] && !q.multiple && q.minLabel == "" && q.maxLabel == ""
       case FreeText => q.scale == 0 && q.options == [] && !q.multiple && q.minLabel == "" && q.maxLabel == ""
       case Other(_) => false
  }

  function NormalizeQuestion(q: Question, freshId: string): Result<Question, QuestionError> {
    var q := q.(caption := TrimSpace(q.caption));
    if q.caption == "" then Err(MissingLabel)
    else if !q.kind.Valid() then Err(UnknownType)
    else
      var q := if q.id == "" then q.(id := "q" + freshId) else q;
      match q.kind
      case Rating =>
        Ok(q.(scale := ClampScale(q.scale), options := [], multiple := false,
              minLabel := TrimSpace(q.minLabel), maxLabel := TrimSpace(q.maxLabel)))
      case Choice =>
        if CleanOptions(q.options) == [] then Err(NoOptions)
        else Ok(q.(options := CleanOptions(q.options), scale := 0, minLabel := "", maxLabel := ""))
      case _ =>
        Ok(q.(scale := 0, options := [], multiple := false, minLabel := "", maxLabel := ""))
  }

  /** All questions normalised, or the error of the first one refused. */
  function NormalizeAll(qs: seq<Question>, freshId: nat -> string): Result<seq<Question>, QuestionError> {
    if qs == [] then Ok([])
    else
      var n := |qs| - 1;
      match NormalizeAll(qs[..n], freshId)
      case Err(e) => Err(e)
      case Ok(done) =>
        match NormalizeQuestion(qs[n], freshId(n))
        case Err(e) => Err(e)
        case Ok(q) => Ok(done + [q])
  }

  /** The loop's work on one question. */
  method Normalize(q0: Question, freshId: string) returns (r: Result<Question, QuestionError>)
    ensures r == NormalizeQuestion(q0, freshId)
  {
    var q := q0.(caption := TrimSpace(q0.caption));
    if q.caption == "" {
      return Err(MissingLabel);
    }
    if !q.kind.Valid() {
      return Err(UnknownType);
    }
    if q.id == "" {
      q := q.(id := "q" + freshId);
    }
    match q.kind {
      case Rating =>
        if q.scale < 2 || q.scale > 10 {
          q := q.(scale := DEFAULT_SCALE);
        }
        q := q.(options := [], multiple := false, minLabel := TrimSpace(q.minLabel), maxLabel := TrimSpace(q.maxLabel));
      case Choice =>
        var cleaned := CollectOptions(q.options);
        if |cleaned| == 0 {
          return Err(NoOptions);
        }
        q := q.(options := cleaned, scale := 0, minLabel := "", maxLabel := "");
      case _ =>
        q := q.(scale := 0, options := [], multiple := false, minLabel := "", maxLabel := "");
    }
    return Ok(q);
  }

  method NormalizeQuestions(qs: seq<Question>, freshId: nat -> string) returns (r: Result<seq<Question>, QuestionError>)
    ensures r == NormalizeAll(qs, freshId)
  {
    var out: seq<Question> := [];
    for i := 0 to |qs|
      invariant NormalizeAll(qs[..i], freshId) == Ok(out)
    {
      assert qs[..i + 1][..i] == qs[..i];
      if NormalizeAll(qs[..i + 1], freshId).Err? {
        FirstErrorStays(qs, i + 1, freshId);
      }
      var q := Normalize(qs[i], freshId(i));
      if q.Err? {
        return Err(q.error);
      }
      out := out + [q.value];
    }
    assert qs[..|qs|] == qs;
    return Ok(out);
  }

  lemma {:induction false} FirstErrorStays(qs: seq<Question>, n: nat, freshId: nat -> string)
    requires n <= |qs| && NormalizeAll(qs[..n], freshId).Err?
    ensures NormalizeAll(qs, freshId) == NormalizeAll(qs[..n], freshId)
  {
    if n < |qs| {
      var m := |qs| - 1;
      assert qs[..m][..n] == qs[..n];
      FirstErrorStays(qs[..m], n, freshId);
    } else {
      assert qs[..n] == qs;
    }
  }

  /** A question is accepted exactly when it is acceptable, and what comes out is canonical. */
  lemma NormalizedIsCanonical(q: Question, freshId: string)
    ensures NormalizeQuestion(q, freshId).Ok? <==> Acceptable(q)
    ensures Acceptable(q) ==> Canonical(NormalizeQuestion(q, freshId).value)
  {
    TrimIsTrimmed(q.caption);
    match q.kind {
      case Rating =>
        TrimIsTrimmed(q.minLabel);
        TrimIsTrimmed(q.maxLabel);
      case Choice =>
        CleanOptionsAreClean(q.options);
      case _ =>
    }
  }

  /** `n` is the stored form of `q`, field by field: caption and labels trimmed, an ID filled in,
      a scale outside 2..10 replaced by 5, and every field of the other types emptied. */
  ghost predicate NormalizedAs(q: Question, n: Question, freshId: string) {
    && n.id == (if q.id == "" then "q" + freshId else q.id)
    && n.kind == q.kind && n.caption == TrimSpace(q.caption)
    && n.description == q.description && n.required == q.required
    && n.scale == (if !q.kind.Rating? then 0 else if 2 <= q.scale <= 10 then q.scale else 5)
    && n.minLabel == (if q.kind.Rating? then TrimSpace(q.minLabel) else "")
    && n.maxLabel == (if q.kind.Rating? then TrimSpace(q.maxLabel) else "")
    && (n.multiple <==> q.kind.Choice? && q.multiple)
    && if q.kind.Choice? then KeepsOptions(q.options, n.options) else n.options == []
  }

  /** What a question is refused for, in this order: no caption, an unknown type, no option. */
  ghost predicate RefusedFor(q: Question, e: QuestionError) {
    match e
    case MissingLabel => Blank(q.caption)
    case UnknownType => !Blank(q.caption) && q.kind.Other?
    case NoOptions => !Blank(q.caption) && q.kind.Choice? && forall o :: o in q.options ==> Blank(o)
  }

  lemma NormalizeOne(q: Question, freshId: string)
    ensures NormalizeQuestion(q, freshId).Ok? ==> NormalizedAs(q, NormalizeQuestion(q, freshId).value, freshId)
    ensures NormalizeQuestion(q, freshId).Err? ==> RefusedFor(q, NormalizeQuestion(q, freshId).error)
  {
    CleanOptionsKeep(q.options);
    CleanOptionsAreClean(q.options);
  }

  ghost predicate AllNormalizedAs(qs: seq<Question>, out: seq<Question>, freshId: nat -> string) {
    |out| == |qs| && forall k :: 0 <= k < |qs| ==> NormalizedAs(qs[k], out[k], freshId(k))
  }

  lemma NormalizedSnoc(init: seq<Question>, qs: seq<Question>, before: seq<Question>, q: Question, freshId: nat -> string)
    requires init <= qs && |qs| == |init| + 1 && AllNormalizedAs(init, before, freshId)
    requires NormalizedAs(qs[|init|], q, freshId(|init|))
    ensures AllNormalizedAs(qs, before + [q], freshId)
  {
  }

  /** Every question of an accepted list is normalised at its place. */
  lemma {:induction false} NormalizedFieldByField(qs: seq<Question>, freshId: nat -> string)
    requires NormalizeAll(qs, freshId).Ok?
    ensures AllNormalizedAs(qs, NormalizeAll(qs, freshId).value, freshId)
  {
    if qs != [] {
      var n := |qs| - 1;
      NormalizedFieldByField(qs[..n], freshId);
      NormalizeOne(qs[n], freshId(n));
      NormalizedSnoc(qs[..n], qs, NormalizeAll(qs[..n], freshId).value, NormalizeQuestion(qs[n], freshId(n)).value, freshId);
    }
  }

  /** A refusal is about the first question that is not acceptable. */
  lemma {:induction false} FirstRefused(qs: seq<Question>, freshId: nat -> string) returns (i: nat)
    requires NormalizeAll(qs, freshId).Err?
    ensures i < |qs| && RefusedFor(qs[i], NormalizeAll(qs, freshId).error)
    ensures forall k :: 0 <= k < i ==> Acceptable(qs[k])
  {
    var n := |qs| - 1;
    if NormalizeAll(qs[..n], freshId).Err? {
      i := FirstRefused(qs[..n], freshId);
    } else {
      i := n;
      NormalizeOne(qs[n], freshId(n));
      NormalizeAllIdempotent(qs[..n], freshId, freshId);
      assert forall k :: 0 <= k < n ==> qs[..n][k] == qs[k];
    }
  }

  /** Normalising leaves a canonical question alone. */
  lemma CanonicalIsFixed(q: Question, freshId: string)
    requires Canonical(q)
    ensures NormalizeQuestion(q, freshId) == Ok(q)
  {
    if q.kind.Choice? {
      CleanOptionsFixed(q.options);
    }
  }

  /** The whole list is accepted exactly when each question is, each result is the canonical
      form of the question at its place, and normalising again changes nothing. */
  lemma {:induction false} NormalizeAllIdempotent(qs: seq<Question>, freshId: nat -> string, otherId: nat -> string)
    ensures NormalizeAll(qs, freshId).Ok? <==> forall q :: q in qs ==> Acceptable(q)
    ensures NormalizeAll(qs, freshId).Ok? ==>
              var out := NormalizeAll(qs, freshId).value;
              && |out| == |qs|
              && (forall q :: q in out ==> Canonical(q))
              && NormalizeAll(out, otherId) == Ok(out)
  {
    if qs != [] {
      var n := |qs| - 1;
      NormalizeAllIdempotent(qs[..n], freshId, otherId);
      NormalizedIsCanonical(qs[n], freshId(n));
      assert qs == qs[..n] + [qs[n]];
      if NormalizeAll(qs, freshId).Ok? {
        var out := NormalizeAll(qs, freshId).value;
        assert out[..n] == NormalizeAll(qs[..n], freshId).value;
        CanonicalIsFixed(out[n], otherId(n));
      }
    }
  }

  // ----- sanitizeSuggestions -----

  /** What survives: a caption, a known type, and for a choice at least two options. */
  ghost predicate Usable(s: Suggestion) {
    !Blank(s.caption) && s.kind.Valid() && (s.kind.Choice? ==> |CleanOptions(s.options)| >= 2)
  }

  function SanitizeOne(s: Suggestion): Option<Suggestion> {
    var s := s.(caption := TrimSpace(s.caption));
    if s.caption == "" || !s.kind.Valid() then None
    else
      match s.kind
      case Rating =>
        Some(s.(scale := ClampScale(s.scale), options := [], multiple := false,
                minLabel := TrimSpace(s.minLabel), maxLabel := TrimSpace(s.maxLabel)))
      case Choice =>
        if |CleanOptions(s.options)| < 2 then None
        else Some(s.(options := CleanOptions(s.options), scale := 0, minLabel := "", maxLabel := ""))
      case _ =>
        Some(s.(scale := 0, options := [], multiple := false, minLabel := "", maxLabel := ""))
  }

  function SanitizeAll(ss: seq<Suggestion>): seq<Suggestion> {
    if ss == [] then []
    else
      var n := |ss| - 1;
      match SanitizeOne(ss[n])
      case None => SanitizeAll(ss[..n])
      case Some(s) => SanitizeAll(ss[..n]) + [s]
  }

  /** `t` is the suggestion `s` as it is kept, field by field. */
  ghost predicate SanitizedAs(s: Suggestion, t: Suggestion) {
    && t.kind == s.kind && t.caption == TrimSpace(s.caption) && t.description == s.description
    && t.scale == (if !s.kind.Rating? then 0 else if 2 <= s.scale <= 10 then s.scale else 5)
    && t.minLabel == (if s.kind.Rating? then TrimSpace(s.minLabel) else "")
    && t.maxLabel == (if s.kind.Rating? then TrimSpace(s.maxLabel) else "")
    && (t.multiple <==> s.kind.Choice? && s.multiple)
    && if s.kind.Choice? then KeepsOptions(s.options, t.options) else t.options == []
  }

  ghost function Usables(ss: seq<Suggestion>): nat {
    if ss == [] then 0 else Usables(ss[..|ss| - 1]) + if Usable(ss[|ss| - 1]) then 1 else 0
  }

  /** Suggestion `i` is kept, in its kept form, after the ones kept before it, if it is usable. */
  ghost predicate KeepsSuggestion(ss: seq<Suggestion>, out: seq<Suggestion>, i: nat)
    requires i < |ss|
  {
    Usable(ss[i]) ==> Usables(ss[..i]) < |out| && SanitizedAs(ss[i], out[Usables(ss[..i])])
  }

  lemma SuggestionStays(init: seq<Suggestion>, ss: seq<Suggestion>, before: seq<Suggestion>, out: seq<Suggestion>, i: nat)
    requires init <= ss && i < |init| && KeepsSuggestion(init, before, i) && before <= out
    ensures KeepsSuggestion(ss, out, i)
  {
    assert init[..i] == ss[..i];
  }

  lemma SanitizeOneFieldByField(s: Suggestion)
    ensures SanitizeOne(s).Some? <==> Usable(s)
    ensures SanitizeOne(s).Some? ==> SanitizedAs(s, SanitizeOne(s).value)
  {
    CleanOptionsKeep(s.options);
  }

  /** Exactly the usable suggestions are kept, in order, each field by field as it was. */
  lemma {:induction false} SanitizedFieldByField(ss: seq<Suggestion>)
    ensures |SanitizeAll(ss)| == Usables(ss)
    ensures forall i :: 0 <= i < |ss| ==> KeepsSuggestion(ss, SanitizeAll(ss), i)
  {
    if ss != [] {
      var n := |ss| - 1;
      SanitizedFieldByField(ss[..n]);
      SanitizeOneFieldByField(ss[n]);
      forall i | 0 <= i < n ensures KeepsSuggestion(ss, SanitizeAll(ss), i) {
        SuggestionStays(ss[..n], ss, SanitizeAll(ss[..n]), SanitizeAll(ss), i);
      }
    }
  }

  method SanitizeSuggestions(ss: seq<Suggestion>) returns (out: seq<Suggestion>)
    ensures out == SanitizeAll(ss)
  {
    out := [];
    for i := 0 to |ss|
      invariant out == SanitizeAll(ss[..i])
    {
      assert ss[..i + 1][..i] == ss[..i];
      var s := ss[i];
      s := s.(caption := TrimSpace(s.caption));
      if s.caption == "" || !s.kind.Valid() {
        continue;
      }
      match s.kind {
        case Rating =>
          if s.scale < 2 || s.scale > 10 {
            s := s.(scale := DEFAULT_SCALE);
          }
          s := s.(options := [], multiple := false, minLabel := TrimSpace(s.minLabel), maxLabel := TrimSpace(s.maxLabel));
        case Choice =>
          var cleaned := CollectOptions(s.options);
          if |cleaned| < 2 {
            continue;
          }
          s := s.(options := cleaned, scale := 0, minLabel := "", maxLabel := "");
        case _ =>
          s := s.(scale := 0, options := [], multiple := false, minLabel := "", maxLabel := "");
      }
      out := out + [s];
    }
    assert ss[..|ss|] == ss;
  }

  /** A suggestion the user adds to the form: the same question, still without an ID. */
  function AsQuestion(s: Suggestion, required: bool): Question {
    Question("", s.kind, s.caption, s.description, required, s.scale, s.options, s.multiple, s.minLabel, s.maxLabel)
  }

  /** A survivor is fixed by sanitising, and the normaliser accepts it with nothing
      changed but the ID filled in. */
  lemma SurvivorIsAccepted(s: Suggestion, required: bool, freshId: string)
    ensures SanitizeOne(s).Some? <==> Usable(s)
    ensures Usable(s) ==>
              var t := SanitizeOne(s).value;
              && SanitizeOne(t) == Some(t)
              && NormalizeQuestion(AsQuestion(t, required), freshId)
                 == Ok(AsQuestion(t, required).(id := "q" + freshId))
  {
    TrimIsTrimmed(s.caption);
    match s.kind {
      case Rating =>
        TrimIsTrimmed(s.minLabel);
        TrimIsTrimmed(s.maxLabel);
      case Choice =>
        CleanOptionsAreClean(s.options);
        CleanOptionsFixed(CleanOptions(s.options));
      case _ =>
    }
  }

  /** Sanitising is idempotent, and the normaliser accepts every survivor as it stands. */
  lemma {:induction false} SanitizeAllIdempotent(ss: seq<Suggestion>)
    ensures SanitizeAll(SanitizeAll(ss)) == SanitizeAll(ss)
    ensures forall s :: s in SanitizeAll(ss) ==> SanitizeOne(s) == Some(s)
    ensures forall s, required, freshId: string :: s in SanitizeAll(ss) ==>
              NormalizeQuestion(AsQuestion(s, required), freshId)
              == Ok(AsQuestion(s, required).(id := "q" + freshId))
  {
    if ss != [] {
      var n := |ss| - 1;
      SanitizeAllIdempotent(ss[..n]);
      forall required, freshId: string {
        SurvivorIsAccepted(ss[n], required, freshId);
      }
      SurvivorIsAccepted(ss[n], false, "");
      if Usable(ss[n]) {
        assert SanitizeAll(ss)[..|SanitizeAll(ss)| - 1] == SanitizeAll(ss[..n]);
      }
    }
  }

  // ----- evaluateSuggestJSON -----

  /** The body of a callback: nothing, text that does not parse, or a parsed reply. */
  datatype Content = NoContent | BadJson | Reply(confidence: int, clarifying: seq<string>, suggestions: seq<Suggestion>)

  datatype Verdict = Verdict(confidence: int, clarify: seq<string>, questions: seq<Suggestion>)

  /** Never both clarifying and suggested questions; the user is asked exactly when the
      model is unsure and has something to ask. */
  function Evaluate(r: Content): (v: Verdict)
    requires r.Reply?
    ensures 0 <= r.confidence <= 100 ==> v.confidence == r.confidence
    ensures (r.confidence < 0 ==> v.confidence == 0) && (r.confidence > 100 ==> v.confidence == 100)
    ensures v.clarify != [] <==> r.confidence < 85 && r.clarifying != []
    ensures v.clarify != [] ==> v.clarify <= r.clarifying && (|v.clarify| == 4 || (v.clarify == r.clarifying && |v.clarify| < 4))
    ensures v.clarify != [] ==> v.questions == []
    ensures v.clarify == [] ==> v.questions == SanitizeAll(r.suggestions)
  {
    var confidence := if r.confidence < 0 then 0 else if r.confidence > 100 then 100 else r.confidence;
    var clarify := if |r.clarifying| > MAX_CLARIFYING then r.clarifying[..MAX_CLARIFYING] else r.clarifying;
    if confidence < CONFIDENCE_THRESHOLD && |clarify| > 0 then Verdict(confidence, clarify, [])
    else Verdict(confidence, [], SanitizeAll(r.suggestions))
  }
}
