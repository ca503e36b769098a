/** The company profile's content, and how a request is merged over it. */
module ProfileContent {
  import opened Text

  datatype Root = Root(
    companyName: string, oneLiner: Option<string>, vision: Option<string>, mission: Option<string>,
    serviceCategories: seq<string>, techStack: seq<string>, products: seq<string>,
    sourceDocRefs: seq<string>, portfolioRefs: seq<string>, supportDocuments: seq<string>,
    crawlFrequency: string, crawlEnabled: bool)

  datatype Target = Target(
    countries: seq<string>, industries: seq<string>,
    valueMin: Option<real>, valueIdeal: Option<real>, valueMax: Option<real>,
    currency: string, deadlineMinDays: Option<int>, procurementTypes: seq<string>, buyerSizeNote: Option<string>,
    documentLanguages: seq<string>, workModel: Option<string>, onsiteLimitNote: Option<string>, decisionMakerRoles: seq<string>)

  datatype NoGo = NoGo(presetFlags: seq<string>, custom: seq<string>)

  datatype KeywordSet = KeywordSet(category: Option<string>, keywords: seq<string>, negativeKeywords: seq<string>, language: string)

  /** The eight weights, then the three thresholds. */
  datatype Scoring = Scoring(values: seq<int>)

  datatype Aggregate = Aggregate(root: Root, target: Option<Target>, noGo: Option<NoGo>, keywords: seq<KeywordSet>, scoring: Option<Scoring>)

  // ----- requests: every field may be left out -----

  datatype RootRequest = RootRequest(
    companyName: string, oneLiner: Option<string>, vision: Option<string>, mission: Option<string>,
    serviceCategories: Option<seq<string>>, techStack: Option<seq<string>>, products: Option<seq<string>>,
    sourceDocRefs: Option<seq<string>>, portfolioRefs: Option<seq<string>>, supportDocuments: Option<seq<string>>,
    crawlFrequency: Option<string>, crawlEnabled: Option<bool>)

  datatype TargetRequest = TargetRequest(
    countries: Option<seq<string>>, industries: Option<seq<string>>,
    valueMin: Option<real>, valueIdeal: Option<real>, valueMax: Option<real>,
    currency: Option<string>, deadlineMinDays: Option<int>, procurementTypes: Option<seq<string>>, buyerSizeNote: Option<string>,
    documentLanguages: Option<seq<string>>, workModel: Option<string>, onsiteLimitNote: Option<string>,
    decisionMakerRoles: Option<seq<string>>)

  datatype NoGoRequest = NoGoRequest(presetFlags: Option<seq<string>>, custom: Option<seq<string>>)

  datatype KeywordRequest = KeywordRequest(category: Option<string>, keywords: seq<string>, negativeKeywords: seq<string>, language: Option<string>)

  /** One optional value for each of the eleven numbers. */
  datatype ScoringRequest = ScoringRequest(values: seq<Option<int>>)

  datatype Request = Request(root: RootRequest, target: Option<TargetRequest>, noGo: Option<NoGoRequest>,
                             keywords: Option<seq<KeywordRequest>>, scoring: Option<ScoringRequest>)

  const SCORING_DEFAULTS := [20, 15, 15, 15, 10, 10, 10, 5, 80, 65, 50]

  function DefaultTarget(): Target {
    Target(["Indonesia"], [], Some(1000000000.0), None, None, "IDR", Some(7),
           ["Barang", "Jasa Konsultansi", "Jasa Lainnya", "Pekerjaan Konstruksi"], None, [], None, None, [])
  }

  function DefaultAggregate(companyName: string): Aggregate {
    Aggregate(Root(companyName, None, None, None, [], [], [], [], [], [], "harian", false),
              Some(DefaultTarget()), Some(NoGo([], [])), [], Some(Scoring(SCORING_DEFAULTS)))
  }

  // ----- merging -----

  /** What the request gives, else what was there. */
  function Coalesce<T>(primary: Option<T>, fallback: T): T {
    if primary.Some? then primary.value else fallback
  }

  /** The same for a field that may be missing altogether. */
  function CoalesceOptional<T>(primary: Option<T>, fallback: Option<T>): Option<T> {
    if primary.Some? then primary else fallback
  }

  function MergeRoot(req: RootRequest, base: Root): Root {
    Root(req.companyName,
         CoalesceOptional(req.oneLiner, base.oneLiner),
         CoalesceOptional(req.vision, base.vision),
         CoalesceOptional(req.mission, base.mission),
         Coalesce(req.serviceCategories, base.serviceCategories),
         Coalesce(req.techStack, base.techStack),
         Coalesce(req.products, base.products),
         Coalesce(req.sourceDocRefs, base.sourceDocRefs),
         Coalesce(req.portfolioRefs, base.portfolioRefs),
         Coalesce(req.supportDocuments, base.supportDocuments),
         Coalesce(req.crawlFrequency, base.crawlFrequency),
         Coalesce(req.crawlEnabled, base.crawlEnabled))
  }

  function OverTarget(req: TargetRequest, base: Target): Target {
    Target(Coalesce(req.countries, base.countries),
           Coalesce(req.industries, base.industries),
           CoalesceOptional(req.valueMin, base.valueMin),
           CoalesceOptional(req.valueIdeal, base.valueIdeal),
           CoalesceOptional(req.valueMax, base.valueMax),
           Coalesce(req.currency, base.currency),
           CoalesceOptional(req.deadlineMinDays, base.deadlineMinDays),
           Coalesce(req.procurementTypes, base.procurementTypes),
           CoalesceOptional(req.buyerSizeNote, base.buyerSizeNote),
           Coalesce(req.documentLanguages, base.documentLanguages),
           CoalesceOptional(req.workModel, base.workModel),
           CoalesceOptional(req.onsiteLimitNote, base.onsiteLimitNote),
           Coalesce(req.decisionMakerRoles, base.decisionMakerRoles))
  }

  function MergeTarget(req: Option<TargetRequest>, base: Option<Target>): Target {
    var from := Coalesce(base, DefaultTarget());
    if req.None? then from else OverTarget(req.value, from)
  }

  function MergeNoGo(req: Option<NoGoRequest>, base: Option<NoGo>): NoGo {
    var from := Coalesce(base, NoGo([], []));
    if req.None? then from
    else NoGo(Coalesce(req.value.presetFlags, from.presetFlags), Coalesce(req.value.custom, from.custom))
  }

  function KeywordOf(k: KeywordRequest): KeywordSet {
    KeywordSet(k.category, k.keywords, k.negativeKeywords, Coalesce(k.language, "id"))
  }

  function KeywordsOf(req: seq<KeywordRequest>): seq<KeywordSet> {
    if req == [] then [] else KeywordsOf(req[..|req| - 1]) + [KeywordOf(req[|req| - 1])]
  }

  function MergedKeywords(req: Option<seq<KeywordRequest>>, base: seq<KeywordSet>): seq<KeywordSet> {
    if req.None? then base else KeywordsOf(req.value)
  }

  /** The keyword sets of a request replace those there were, one for one and in order. */
  method MergeKeywords(req: Option<seq<KeywordRequest>>, base: seq<KeywordSet>) returns (out: seq<KeywordSet>)
    ensures req.None? ==> out == base
    ensures req.Some? ==> |out| == |req.value|
    ensures req.Some? ==> forall i :: 0 <= i < |out| ==>
              && out[i].category == req.value[i].category && out[i].keywords == req.value[i].keywords
              && out[i].negativeKeywords == req.value[i].negativeKeywords
              && out[i].language == (if req.value[i].language.Some? then req.value[i].language.value else "id")
    ensures out == MergedKeywords(req, base)
  {
    if req.None? {
      return base;
    }
    out := [];
    for i := 0 to |req.value|
      invariant |out| == i && out == KeywordsOf(req.value[..i])
      invariant forall j :: 0 <= j < i ==> out[j] == KeywordOf(req.value[j])
    {
      assert req.value[..i + 1][..i] == req.value[..i];
      out := out + [KeywordOf(req.value[i])];
    }
    assert req.value[..|req.value|] == req.value;
  }

  function Pick(req: seq<Option<int>>, base: seq<int>): seq<int> {
    seq(|base|, i requires 0 <= i < |base| => if i < |req| then Coalesce(req[i], base[i]) else base[i])
  }

  function MergeScoring(req: Option<ScoringRequest>, base: Option<Scoring>): Scoring {
    var from := Coalesce(base, Scoring(SCORING_DEFAULTS));
    if req.None? then from else Scoring(Pick(req.value.values, from.values))
  }

  function Merge(req: Request, base: Aggregate): Aggregate {
    Aggregate(MergeRoot(req.root, base.root),
              Some(MergeTarget(req.target, base.target)),
              Some(MergeNoGo(req.noGo, base.noGo)),
              MergedKeywords(req.keywords, base.keywords),
              Some(MergeScoring(req.scoring, base.scoring)))
  }

  lemma ScoringTwice(req: Option<ScoringRequest>, base: Option<Scoring>)
    ensures MergeScoring(req, Some(MergeScoring(req, base))) == MergeScoring(req, base)
  {
    if req.Some? {
      var once := Pick(req.value.values, Coalesce(base, Scoring(SCORING_DEFAULTS)).values);
      assert Pick(req.value.values, once) == once;
    }
  }

  /** A request merged over its own result changes nothing more. */
  lemma MergeTwice(req: Request, base: Aggregate)
    ensures Merge(req, Merge(req, base)) == Merge(req, base)
  {
    ScoringTwice(req.scoring, base.scoring);
    TargetTwice(req.target, base.target);
  }

  lemma TargetTwice(req: Option<TargetRequest>, base: Option<Target>)
    ensures MergeTarget(req, Some(MergeTarget(req, base))) == MergeTarget(req, base)
  {
  }

  // ----- what a merge holds, field by field -----

  /** A field has what was asked for, or what it had when nothing was. */
  ghost predicate Takes<T>(asked: Option<T>, had: T, has: T) {
    (asked.Some? ==> has == asked.value) && (asked.None? ==> has == had)
  }

  ghost predicate TakesOptional<T>(asked: Option<T>, had: Option<T>, has: Option<T>) {
    (asked.Some? ==> has == asked) && (asked.None? ==> has == had)
  }

  ghost predicate RootTakenFrom(req: RootRequest, had: Root, has: Root) {
    && has.companyName == req.companyName
    && TakesOptional(req.oneLiner, had.oneLiner, has.oneLiner)
    && TakesOptional(req.vision, had.vision, has.vision)
    && TakesOptional(req.mission, had.mission, has.mission)
    && Takes(req.serviceCategories, had.serviceCategories, has.serviceCategories)
    && Takes(req.techStack, had.techStack, has.techStack)
    && Takes(req.products, had.products, has.products)
    && Takes(req.sourceDocRefs, had.sourceDocRefs, has.sourceDocRefs)
    && Takes(req.portfolioRefs, had.portfolioRefs, has.portfolioRefs)
    && Takes(req.supportDocuments, had.supportDocuments, has.supportDocuments)
    && Takes(req.crawlFrequency, had.crawlFrequency, has.crawlFrequency)
    && Takes(req.crawlEnabled, had.crawlEnabled, has.crawlEnabled)
  }

  ghost predicate TargetTakenFrom(req: TargetRequest, had: Target, has: Target) {
    && Takes(req.countries, had.countries, has.countries)
    && Takes(req.industries, had.industries, has.industries)
    && TakesOptional(req.valueMin, had.valueMin, has.valueMin)
    && TakesOptional(req.valueIdeal, had.valueIdeal, has.valueIdeal)
    && TakesOptional(req.valueMax, had.valueMax, has.valueMax)
    && Takes(req.currency, had.currency, has.currency)
    && TakesOptional(req.deadlineMinDays, had.deadlineMinDays, has.deadlineMinDays)
    && Takes(req.procurementTypes, had.procurementTypes, has.procurementTypes)
    && TakesOptional(req.buyerSizeNote, had.buyerSizeNote, has.buyerSizeNote)
    && Takes(req.documentLanguages, had.documentLanguages, has.documentLanguages)
    && TakesOptional(req.workModel, had.workModel, has.workModel)
    && TakesOptional(req.onsiteLimitNote, had.onsiteLimitNote, has.onsiteLimitNote)
    && Takes(req.decisionMakerRoles, had.decisionMakerRoles, has.decisionMakerRoles)
  }

  /** A target that is missing is taken from the template: Indonesia, at least a milliard rupiah, a week,
      and the four kinds of procurement. */
  ghost predicate TargetFrom(req: Option<TargetRequest>, base: Option<Target>, has: Target) {
    var template := Target(["Indonesia"], [], Some(1000000000.0), None, None, "IDR", Some(7),
                           ["Barang", "Jasa Konsultansi", "Jasa Lainnya", "Pekerjaan Konstruksi"], None, [], None, None, []);
    var had := if base.Some? then base.value else template;
    if req.None? then has == had else TargetTakenFrom(req.value, had, has)
  }

  ghost predicate NoGoFrom(req: Option<NoGoRequest>, base: Option<NoGo>, has: NoGo) {
    var had := if base.Some? then base.value else NoGo([], []);
    if req.None? then has == had
    else Takes(req.value.presetFlags, had.presetFlags, has.presetFlags) && Takes(req.value.custom, had.custom, has.custom)
  }

  /** The keyword sets are replaced as a whole, in the default language where none is named. */
  ghost predicate KeywordsFrom(req: Option<seq<KeywordRequest>>, base: seq<KeywordSet>, has: seq<KeywordSet>) {
    if req.None? then has == base
    else
      && |has| == |req.value|
      && forall i :: 0 <= i < |has| ==>
           && has[i].category == req.value[i].category && has[i].keywords == req.value[i].keywords
           && has[i].negativeKeywords == req.value[i].negativeKeywords && Takes(req.value[i].language, "id", has[i].language)
  }

  /** Each number by itself; numbers that are missing are the template's. */
  ghost predicate ScoringFrom(req: Option<ScoringRequest>, base: Option<Scoring>, has: Scoring) {
    var had := if base.Some? then base.value.values else [20, 15, 15, 15, 10, 10, 10, 5, 80, 65, 50];
    && |has.values| == |had|
    && forall i :: 0 <= i < |had| ==>
         Takes(if req.Some? && i < |req.value.values| then req.value.values[i] else None, had[i], has.values[i])
  }

  lemma {:induction false} KeywordsTaken(req: seq<KeywordRequest>)
    ensures KeywordsFrom(Some(req), [], KeywordsOf(req))
  {
    if req != [] {
      KeywordsTaken(req[..|req| - 1]);
    }
  }

  lemma ScoringTaken(req: Option<ScoringRequest>, base: Option<Scoring>)
    ensures ScoringFrom(req, base, MergeScoring(req, base))
  {
  }

  /** Every field of a merge is the one the request gives, and where it gives none the one there was. */
  lemma MergedFieldByField(req: Request, base: Aggregate)
    ensures var has := Merge(req, base);
            && RootTakenFrom(req.root, base.root, has.root)
            && has.target.Some? && TargetFrom(req.target, base.target, has.target.value)
            && has.noGo.Some? && NoGoFrom(req.noGo, base.noGo, has.noGo.value)
            && KeywordsFrom(req.keywords, base.keywords, has.keywords)
            && has.scoring.Some? && ScoringFrom(req.scoring, base.scoring, has.scoring.value)
  {
    if req.keywords.Some? {
      KeywordsTaken(req.keywords.value);
    }
    ScoringTaken(req.scoring, base.scoring);
  }

  /** The template's eight weights add up to a hundred, and its thresholds descend. */
  lemma TemplateIsBalanced(companyName: string)
    ensures var a := DefaultAggregate(companyName);
            && a.root.companyName == companyName && a.root.crawlFrequency == "harian" && !a.root.crawlEnabled
            && a.keywords == [] && a.noGo == Some(NoGo([], []))
            && a.target.Some? && TargetFrom(None, None, a.target.value)
            && a.scoring.Some? && ScoringFrom(None, None, a.scoring.value)
            && |a.scoring.value.values| == 11 && SumOf(a.scoring.value.values, 8) == 100
            && a.scoring.value.values[8] > a.scoring.value.values[9] > a.scoring.value.values[10] > 0
  {
    var values := SCORING_DEFAULTS;
    assert SumOf(values, 4) == 65;
    assert SumOf(values, 6) == SumOf(values, 4) + 20;
  }

  function SumOf(values: seq<int>, n: nat): int
    requires n <= |values|
  {
    if n == 0 then 0 else SumOf(values, n - 1) + values[n - 1]
  }

  // ----- what a stored row holds -----

  /** The column's declared default is written for a zero value. */
  function OrDefault<T(==)>(value: T, zero: T, default: T): T {
    if value == zero then default else value
  }

  function StoredScoring(s: Scoring): Scoring {
    Scoring(seq(|s.values|, i requires 0 <= i < |s.values| =>
      if i < |SCORING_DEFAULTS| then OrDefault(s.values[i], 0, SCORING_DEFAULTS[i]) else s.values[i]))
  }

  function StoredKeywords(ks: seq<KeywordSet>): seq<KeywordSet> {
    seq(|ks|, i requires 0 <= i < |ks| => ks[i].(language := OrDefault(ks[i].language, "", "id")))
  }

  function StoredTarget(t: Target): Target {
    t.(currency := OrDefault(t.currency, "", "IDR"))
  }

  function StoredRoot(r: Root): Root {
    r.(crawlFrequency := OrDefault(r.crawlFrequency, "", "harian"))
  }

  function Stored(a: Aggregate): Aggregate {
    Aggregate(StoredRoot(a.root),
              if a.target.Some? then Some(StoredTarget(a.target.value)) else None,
              a.noGo,
              StoredKeywords(a.keywords),
              if a.scoring.Some? then Some(StoredScoring(a.scoring.value)) else None)
  }

  /** A field is stored as it is, except that the zero value becomes the default. */
  ghost predicate StoredAs<T>(value: T, zero: T, default: T, stored: T) {
    (value != zero ==> stored == value) && (value == zero ==> stored == default)
  }

  /** Storing changes four kinds of fields and only when they are zero: an empty frequency becomes daily,
      an empty currency rupiah, an empty language Indonesian, and a scoring number 0 its default. */
  lemma StoredFieldByField(a: Aggregate)
    ensures var s := Stored(a);
            && s.root == a.root.(crawlFrequency := s.root.crawlFrequency)
            && StoredAs(a.root.crawlFrequency, "", "harian", s.root.crawlFrequency)
            && (s.target.Some? <==> a.target.Some?)
            && (a.target.Some? ==>
                  && s.target.value == a.target.value.(currency := s.target.value.currency)
                  && StoredAs(a.target.value.currency, "", "IDR", s.target.value.currency))
            && s.noGo == a.noGo
            && |s.keywords| == |a.keywords|
            && (forall i :: 0 <= i < |a.keywords| ==>
                  && s.keywords[i] == a.keywords[i].(language := s.keywords[i].language)
                  && StoredAs(a.keywords[i].language, "", "id", s.keywords[i].language))
            && (s.scoring.Some? <==> a.scoring.Some?)
            && (a.scoring.Some? ==> NumbersStoredAs(a.scoring.value.values, s.scoring.value.values))
  {
  }

  ghost predicate NumbersStoredAs(values: seq<int>, stored: seq<int>) {
    var defaults := [20, 15, 15, 15, 10, 10, 10, 5, 80, 65, 50];
    && |stored| == |values|
    && forall i :: 0 <= i < |values| ==>
         if i < |defaults| then StoredAs(values[i], 0, defaults[i], stored[i]) else stored[i] == values[i]
  }

  /** No field with a declared default is zero. */
  predicate NoZero(a: Aggregate) {
    && a.root.crawlFrequency != ""
    && (a.target.Some? ==> a.target.value.currency != "")
    && (forall i :: 0 <= i < |a.keywords| ==> a.keywords[i].language != "")
    && (a.scoring.Some? ==> NonZero(a.scoring.value.values))
  }

  predicate NonZero(values: seq<int>) {
    forall i :: 0 <= i < |values| && i < |SCORING_DEFAULTS| ==> values[i] != 0
  }

  lemma ScoringStays(s: Scoring)
    ensures StoredScoring(s) == s <==> NonZero(s.values)
    ensures NonZero(StoredScoring(s).values)
  {
    var t := StoredScoring(s);
    forall i | 0 <= i < |s.values| && i < |SCORING_DEFAULTS|
      ensures t.values[i] != 0 && (t.values[i] == s.values[i] <==> s.values[i] != 0)
    {
      assert SCORING_DEFAULTS[i] != 0;
    }
    if NonZero(s.values) {
      assert t.values == s.values;
    }
  }

  lemma KeywordsStay(ks: seq<KeywordSet>)
    ensures StoredKeywords(ks) == ks <==> forall i :: 0 <= i < |ks| ==> ks[i].language != ""
    ensures forall i :: 0 <= i < |ks| ==> StoredKeywords(ks)[i].language != ""
  {
    if forall i :: 0 <= i < |ks| ==> ks[i].language != "" {
      assert StoredKeywords(ks) == ks;
    } else {
      var i :| 0 <= i < |ks| && ks[i].language == "";
      assert StoredKeywords(ks)[i].language != ks[i].language;
    }
  }

  /** The stored row is what was to be stored exactly when nothing in it is a zero with a default; a
      requested weight of 0 comes back as the default weight. */
  lemma StoredIsTrue(a: Aggregate)
    ensures Stored(a) == a <==> NoZero(a)
    ensures NoZero(Stored(a))
  {
    KeywordsStay(a.keywords);
    if a.scoring.Some? {
      ScoringStays(a.scoring.value);
    }
  }

  /** The request itself sets no field that declares a default to its zero value. */
  predicate AsksNoZero(req: Request) {
    && req.root.crawlFrequency != Some("")
    && (req.target.Some? ==> req.target.value.currency != Some(""))
    && (req.keywords.Some? ==> forall i :: 0 <= i < |req.keywords.value| ==> req.keywords.value[i].language != Some(""))
    && (req.scoring.Some? ==> ScoringAsksNoZero(req.scoring.value.values))
  }

  predicate ScoringAsksNoZero(values: seq<Option<int>>) {
    forall i :: 0 <= i < |values| && i < |SCORING_DEFAULTS| ==> values[i] != Some(0)
  }

  /** An aggregate that was read from the tables, or the template: no zero where a default is
      declared, and all eleven numbers. */
  predicate Complete(a: Aggregate) {
    NoZero(a) && (a.scoring.Some? ==> |a.scoring.value.values| == |SCORING_DEFAULTS|)
  }

  lemma ScoringZeroIff(req: Option<ScoringRequest>, base: Option<Scoring>)
    requires base.Some? ==> NonZero(base.value.values) && |base.value.values| == |SCORING_DEFAULTS|
    ensures NonZero(MergeScoring(req, base).values) <==> (req.Some? ==> ScoringAsksNoZero(req.value.values))
    ensures |MergeScoring(req, base).values| == |SCORING_DEFAULTS|
  {
    var from := Coalesce(base, Scoring(SCORING_DEFAULTS));
    assert NonZero(from.values);
    if req.Some? {
      var values, merged := req.value.values, MergeScoring(req, base).values;
      forall i | 0 <= i < |SCORING_DEFAULTS| ensures merged[i] != 0 <==> (i < |values| ==> values[i] != Some(0)) {
        assert from.values[i] != 0;
      }
    }
  }

  lemma {:induction false} KeywordsZeroIff(req: seq<KeywordRequest>)
    ensures |KeywordsOf(req)| == |req|
    ensures forall i :: 0 <= i < |req| ==> (KeywordsOf(req)[i].language != "" <==> req[i].language != Some(""))
  {
    if req != [] {
      KeywordsZeroIff(req[..|req| - 1]);
    }
  }

  /** Merged over such an aggregate, a request leaves a zero exactly when it asks for one. */
  lemma MergeZeroIff(req: Request, base: Aggregate)
    requires Complete(base)
    ensures NoZero(Merge(req, base)) <==> AsksNoZero(req)
  {
    ScoringZeroIff(req.scoring, base.scoring);
    if req.keywords.Some? {
      KeywordsZeroIff(req.keywords.value);
    }
  }

  /** What is stored of a merge is such an aggregate again. */
  lemma StoredIsComplete(req: Request, base: Aggregate)
    requires Complete(base)
    ensures Complete(Stored(Merge(req, base)))
  {
    StoredIsTrue(Merge(req, base));
    ScoringZeroIff(req.scoring, base.scoring);
  }

  lemma TemplateIsComplete(companyName: string)
    ensures Complete(DefaultAggregate(companyName))
  {
    forall i | 0 <= i < |SCORING_DEFAULTS| ensures SCORING_DEFAULTS[i] != 0 {
    }
  }

  lemma StoredScoringTwice(req: Option<ScoringRequest>, base: Option<Scoring>)
    ensures var once := StoredScoring(MergeScoring(req, base));
            StoredScoring(MergeScoring(req, Some(once))) == once
  {
    var merged := MergeScoring(req, base);
    var once := StoredScoring(merged);
    ScoringStays(merged);
    ScoringStays(once);
    if req.Some? {
      assert StoredScoring(Scoring(Pick(req.value.values, once.values))).values == once.values;
    }
  }

  lemma StoredKeywordsTwice(req: Option<seq<KeywordRequest>>, base: seq<KeywordSet>)
    ensures var once := StoredKeywords(MergedKeywords(req, base));
            StoredKeywords(MergedKeywords(req, once)) == once
  {
    KeywordsStay(StoredKeywords(MergedKeywords(req, base)));
  }

  lemma StoredTargetTwice(req: Option<TargetRequest>, base: Option<Target>)
    ensures var once := StoredTarget(MergeTarget(req, base));
            StoredTarget(MergeTarget(req, Some(once))) == once
  {
  }

  lemma StoredRootTwice(req: RootRequest, base: Root)
    ensures var once := StoredRoot(MergeRoot(req, base));
            StoredRoot(MergeRoot(req, once)) == once
  {
  }

  /** Storing the merge of a request twice over stores the same as once. */
  lemma StoredMergeTwice(req: Request, base: Aggregate)
    ensures var once := Stored(Merge(req, base));
            Stored(Merge(req, once)) == once
  {
    StoredRootTwice(req.root, base.root);
    StoredTargetTwice(req.target, base.target);
    StoredKeywordsTwice(req.keywords, base.keywords);
    StoredScoringTwice(req.scoring, base.scoring);
  }

  // ----- what a request takes from its base -----

  predicate RootAgrees(req: RootRequest, a: Root, b: Root) {
    && (req.oneLiner.None? ==> a.oneLiner == b.oneLiner)
    && (req.vision.None? ==> a.vision == b.vision)
    && (req.mission.None? ==> a.mission == b.mission)
    && (req.serviceCategories.None? ==> a.serviceCategories == b.serviceCategories)
    && (req.techStack.None? ==> a.techStack == b.techStack)
    && (req.products.None? ==> a.products == b.products)
    && (req.sourceDocRefs.None? ==> a.sourceDocRefs == b.sourceDocRefs)
    && (req.portfolioRefs.None? ==> a.portfolioRefs == b.portfolioRefs)
    && (req.supportDocuments.None? ==> a.supportDocuments == b.supportDocuments)
    && (req.crawlFrequency.None? ==> a.crawlFrequency == b.crawlFrequency)
    && (req.crawlEnabled.None? ==> a.crawlEnabled == b.crawlEnabled)
  }

  predicate TargetAgrees(req: TargetRequest, a: Target, b: Target) {
    && (req.countries.None? ==> a.countries == b.countries)
    && (req.industries.None? ==> a.industries == b.industries)
    && (req.valueMin.None? ==> a.valueMin == b.valueMin)
    && (req.valueIdeal.None? ==> a.valueIdeal == b.valueIdeal)
    && (req.valueMax.None? ==> a.valueMax == b.valueMax)
    && (req.currency.None? ==> a.currency == b.currency)
    && (req.deadlineMinDays.None? ==> a.deadlineMinDays == b.deadlineMinDays)
    && (req.procurementTypes.None? ==> a.procurementTypes == b.procurementTypes)
    && (req.buyerSizeNote.None? ==> a.buyerSizeNote == b.buyerSizeNote)
    && (req.documentLanguages.None? ==> a.documentLanguages == b.documentLanguages)
    && (req.workModel.None? ==> a.workModel == b.workModel)
    && (req.onsiteLimitNote.None? ==> a.onsiteLimitNote == b.onsiteLimitNote)
    && (req.decisionMakerRoles.None? ==> a.decisionMakerRoles == b.decisionMakerRoles)
  }

  predicate NoGoAgrees(req: NoGoRequest, a: NoGo, b: NoGo) {
    && (req.presetFlags.None? ==> a.presetFlags == b.presetFlags)
    && (req.custom.None? ==> a.custom == b.custom)
  }

  predicate NumbersAgree(req: seq<Option<int>>, a: seq<int>, b: seq<int>) {
    && |a| == |b|
    && forall i :: 0 <= i < |a| && (i >= |req| || req[i].None?) ==> a[i] == b[i]
  }

  /** The two bases hold the same wherever the request says nothing. */
  predicate AgreeWhereSilent(req: Request, a: Aggregate, b: Aggregate) {
    && RootAgrees(req.root, a.root, b.root)
    && (var s, t := Coalesce(a.target, DefaultTarget()), Coalesce(b.target, DefaultTarget());
        if req.target.None? then s == t else TargetAgrees(req.target.value, s, t))
    && (var s, t := Coalesce(a.noGo, NoGo([], [])), Coalesce(b.noGo, NoGo([], []));
        if req.noGo.None? then s == t else NoGoAgrees(req.noGo.value, s, t))
    && (req.keywords.None? ==> a.keywords == b.keywords)
    && (var s, t := Coalesce(a.scoring, Scoring(SCORING_DEFAULTS)), Coalesce(b.scoring, Scoring(SCORING_DEFAULTS));
        if req.scoring.None? then s == t else NumbersAgree(req.scoring.value.values, s.values, t.values))
  }

  lemma RootTakes(req: RootRequest, a: Root, b: Root)
    requires a.crawlFrequency != "" && b.crawlFrequency != ""
    ensures StoredRoot(MergeRoot(req, a)) == StoredRoot(MergeRoot(req, b)) <==> RootAgrees(req, a, b)
  {
  }

  lemma TargetTakes(req: TargetRequest, a: Target, b: Target)
    requires a.currency != "" && b.currency != ""
    ensures StoredTarget(OverTarget(req, a)) == StoredTarget(OverTarget(req, b)) <==> TargetAgrees(req, a, b)
  {
  }

  lemma NumbersTake(req: seq<Option<int>>, a: seq<int>, b: seq<int>)
    requires |a| == |b| == |SCORING_DEFAULTS| && NonZero(a) && NonZero(b)
    ensures StoredScoring(Scoring(Pick(req, a))) == StoredScoring(Scoring(Pick(req, b))) <==> NumbersAgree(req, a, b)
  {
    var s, t := StoredScoring(Scoring(Pick(req, a))).values, StoredScoring(Scoring(Pick(req, b))).values;
    forall i | 0 <= i < |a| ensures s[i] == t[i] <==> (i >= |req| || req[i].None? ==> a[i] == b[i]) {
      assert a[i] != 0 && b[i] != 0;
    }
    assert NumbersAgree(req, a, b) ==> s == t;
  }

  lemma ScoringTakes(req: Option<ScoringRequest>, a: Option<Scoring>, b: Option<Scoring>)
    requires a.Some? ==> NonZero(a.value.values) && |a.value.values| == |SCORING_DEFAULTS|
    requires b.Some? ==> NonZero(b.value.values) && |b.value.values| == |SCORING_DEFAULTS|
    ensures var s, t := Coalesce(a, Scoring(SCORING_DEFAULTS)), Coalesce(b, Scoring(SCORING_DEFAULTS));
            StoredScoring(MergeScoring(req, a)) == StoredScoring(MergeScoring(req, b))
            <==> if req.None? then s == t else NumbersAgree(req.value.values, s.values, t.values)
  {
    var s, t := Coalesce(a, Scoring(SCORING_DEFAULTS)), Coalesce(b, Scoring(SCORING_DEFAULTS));
    assert NonZero(s.values) && NonZero(t.values);
    if req.None? {
      ScoringStays(s);
      ScoringStays(t);
    } else {
      NumbersTake(req.value.values, s.values, t.values);
    }
  }

  lemma KeywordsTake(req: Option<seq<KeywordRequest>>, a: seq<KeywordSet>, b: seq<KeywordSet>)
    requires forall i :: 0 <= i < |a| ==> a[i].language != ""
    requires forall i :: 0 <= i < |b| ==> b[i].language != ""
    ensures StoredKeywords(MergedKeywords(req, a)) == StoredKeywords(MergedKeywords(req, b)) <==> (req.None? ==> a == b)
  {
    KeywordsStay(a);
    KeywordsStay(b);
  }

  lemma MaybeTargetTakes(req: Option<TargetRequest>, a: Option<Target>, b: Option<Target>)
    requires a.Some? ==> a.value.currency != ""
    requires b.Some? ==> b.value.currency != ""
    ensures var s, t := Coalesce(a, DefaultTarget()), Coalesce(b, DefaultTarget());
            StoredTarget(MergeTarget(req, a)) == StoredTarget(MergeTarget(req, b))
            <==> if req.None? then s == t else TargetAgrees(req.value, s, t)
  {
    if req.Some? {
      TargetTakes(req.value, Coalesce(a, DefaultTarget()), Coalesce(b, DefaultTarget()));
    }
  }

  /** Stored over two bases, a request gives the same exactly when they agree where it is silent. */
  lemma SameMergeIff(req: Request, a: Aggregate, b: Aggregate)
    requires Complete(a) && Complete(b)
    ensures Stored(Merge(req, a)) == Stored(Merge(req, b)) <==> AgreeWhereSilent(req, a, b)
  {
    RootTakes(req.root, a.root, b.root);
    MaybeTargetTakes(req.target, a.target, b.target);
    KeywordsTake(req.keywords, a.keywords, b.keywords);
    ScoringTakes(req.scoring, a.scoring, b.scoring);
  }
}
