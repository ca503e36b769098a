/** How many questions of each type the user asked for: parsed from the request, stored
    as strings inside the AI job, and read back for every clarification round. */
module TypeCounts {
  import opened Text
  import opened FeedbackDomain

  datatype CountSpec = CountSpec(random: bool, count: int)

  type Spec = map<QuestionType, CountSpec>

  /** A JSON value of the request object, as far as the parser looks at it. */
  datatype JsonValue = Number(n: int) | Text(s: string) | Null | OtherJson

  predicate SaysRandom(s: string) {
    ToLower(s) == "random"
  }

  predicate FitsInt(n: int) {
    -MAX_INT64 - 1 <= n <= MAX_INT64
  }

  /** One field of the object. JSON null unmarshals into an integer as 0. */
  function ParseCount(v: JsonValue): Option<CountSpec> {
    match v
    case Number(n) => if FitsInt(n) then Some(CountSpec(false, if n < 0 then 0 else n)) else None
    case Null => Some(CountSpec(false, 0))
    case Text(s) => if SaysRandom(TrimSpace(s)) then Some(CountSpec(true, 0)) else None
    case OtherJson => None
  }

  /** A number counts, a negative one as 0; null is 0; text must say "random" in any case. */
  lemma CountsReadAs(v: JsonValue)
    ensures var c := ParseCount(v);
            match v
            case Number(n) => c.Some? <==> -0x8000_0000_0000_0000 <= n <= 0x7fff_ffff_ffff_ffff
            case Null => c.Some?
            case Text(s) => c.Some? <==> ToLower(TrimSpace(s)) == "random"
            case OtherJson => c.None?
    ensures ParseCount(v).Some? ==>
              var c := ParseCount(v).value;
              && (c.random <==> v.Text?) && c.count >= 0
              && (v.Number? && v.n > 0 ==> c.count == v.n)
              && (!(v.Number? && v.n > 0) ==> c.count == 0)
  {
  }

  /** The fields of known type that can be read, each with its specification. */
  function Readable(fields: map<QuestionType, JsonValue>): Spec {
    map t | t in fields && t.Valid() && ParseCount(fields[t]).Some? :: ParseCount(fields[t]).value
  }

  /** `ParseSuggestTypeCounts` after the JSON object has been read: unknown types are
      skipped, one unreadable value refuses the whole request. */
  method ParseSuggestTypeCounts(fields: map<QuestionType, JsonValue>) returns (r: Option<Spec>)
    ensures r.None? <==> exists t :: t in fields && t.Valid() && ParseCount(fields[t]).None?
    ensures r.Some? ==> r.value == Readable(fields) && r.value.Keys == set t | t in fields && t.Valid()
  {
    var out: Spec := map[];
    var todo := fields.Keys;
    while todo != {}
      invariant todo <= fields.Keys
      invariant forall t :: t in fields.Keys - todo && t.Valid() ==> ParseCount(fields[t]).Some?
      invariant out == map t | t in fields.Keys - todo && t.Valid() && ParseCount(fields[t]).Some? :: ParseCount(fields[t]).value
      decreases |todo|
    {
      var t :| t in todo;
      todo := todo - {t};
      if !t.Valid() {
        continue;
      }
      match ParseCount(fields[t]) {
        case None => return None;
        case Some(c) => out := out[t := c];
      }
    }
    return Some(out);
  }

  function CountToString(c: CountSpec): string {
    if c.random then "random" else if c.count < 0 then "-" + Itoa(-c.count) else Itoa(c.count)
  }

  function CountFromString(s: string): CountSpec {
    if SaysRandom(s) then CountSpec(true, 0)
    else
      match Atoi(s)
      case Some(n) => CountSpec(false, if n < 0 then 0 else n)
      case None => CountSpec(false, 0)
  }

  method TypeCountsToStrings(spec: Spec) returns (out: map<QuestionType, string>)
    ensures out == Stored(spec)
  {
    out := map[];
    var todo := spec.Keys;
    while todo != {}
      invariant todo <= spec.Keys
      invariant out == map t | t in spec.Keys - todo :: CountToString(spec[t])
      decreases |todo|
    {
      var t :| t in todo;
      todo := todo - {t};
      out := out[t := CountToString(spec[t])];
    }
  }

  method TypeCountsFromStrings(m: map<QuestionType, string>) returns (out: Spec)
    ensures out == Restored(m)
  {
    out := map[];
    var todo := m.Keys;
    while todo != {}
      invariant todo <= m.Keys
      invariant out == map t | t in m.Keys - todo :: CountFromString(m[t])
      decreases |todo|
    {
      var t :| t in todo;
      todo := todo - {t};
      out := out[t := CountFromString(m[t])];
    }
  }

  function Stored(spec: Spec): map<QuestionType, string> {
    map t | t in spec :: CountToString(spec[t])
  }

  function Restored(m: map<QuestionType, string>): Spec {
    map t | t in m :: CountFromString(m[t])
  }

  /** The specifications the parser can produce. */
  predicate Parsed(c: CountSpec) {
    0 <= c.count <= MAX_INT64 && (c.random ==> c.count == 0)
  }

  lemma DigitsAreNotRandom(n: nat)
    ensures !SaysRandom(Itoa(n)) && !SaysRandom("-" + Itoa(n))
  {
    var s := Itoa(n);
    assert IsDigit(s[0]);
    assert ToLower(s)[0] == s[0] != "random"[0];
    assert ToLower("-" + s)[0] == '-' != "random"[0];
  }

  /** Stored text is "random" or a decimal number, and text that is neither is read back as 0. */
  lemma CountsStoredAs(c: CountSpec, s: string)
    ensures c.random ==> CountToString(c) == "random"
    ensures !c.random && c.count >= 0 ==> Atoi(CountToString(c)) == if c.count <= MAX_INT64 then Some(c.count) else None
    ensures ToLower(s) == "random" ==> CountFromString(s) == CountSpec(true, 0)
    ensures ToLower(s) != "random" ==>
              !CountFromString(s).random
              && match Atoi(s)
                 case Some(n) => n >= 0 ==> CountFromString(s).count == n
                 case None => CountFromString(s).count == 0
    ensures CountFromString(s).count >= 0
  {
    if c.count >= 0 {
      AtoiOfItoa(c.count);
    }
  }

  lemma CountRoundTrip(c: CountSpec)
    ensures CountFromString(CountToString(c)) == c <==> Parsed(c)
  {
    if c.random {
      assert ToLower("random") == "random";
    } else if c.count >= 0 {
      DigitsAreNotRandom(c.count);
      AtoiOfItoa(c.count);
    } else {
      DigitsAreNotRandom(-c.count);
      var s := "-" + Itoa(-c.count);
      assert s[1..] == Itoa(-c.count);
      assert Atoi(s).Some? ==> Atoi(s).value <= 0;
    }
  }

  /** Reading back undoes storing exactly for the specifications the parser produces. */
  lemma StoreRoundTrip(spec: Spec)
    ensures Restored(Stored(spec)) == spec <==> forall t :: t in spec ==> Parsed(spec[t])
  {
    var back := Restored(Stored(spec));
    forall t | t in spec ensures back[t] == spec[t] <==> Parsed(spec[t]) {
      CountRoundTrip(spec[t]);
    }
    assert back == spec <==> forall t :: t in spec ==> back[t] == spec[t];
  }

  /** So every clarification round works from the configuration the user sent. */
  lemma ParsedSpecSurvivesStorage(fields: map<QuestionType, JsonValue>)
    ensures Restored(Stored(Readable(fields))) == Readable(fields)
  {
    StoreRoundTrip(Readable(fields));
  }
}
