/** The versioned company profile: every save demotes the current row and inserts a new version with
    children of its own; older versions stay as history. */
module Profiles {
  import opened Text
  import opened Collections
  import opened ProfileContent

  datatype ProfileRow = ProfileRow(root: Root, version: nat, current: bool)

  /** A child row points to its profile row by place. */
  datatype Child<T> = Child(profile: nat, value: T)

  datatype Tables = Tables(profiles: seq<ProfileRow>, targets: seq<Child<Target>>, noGos: seq<Child<NoGo>>,
                           keywords: seq<Child<KeywordSet>>, scorings: seq<Child<Scoring>>)

  const EMPTY := Tables([], [], [], [], [])

  // ----- reading -----

  /** The first child of a profile. */
  function FirstOf<T>(children: seq<Child<T>>, id: nat): Option<T> {
    if children == [] then None
    else
      var n := |children| - 1;
      var before := FirstOf(children[..n], id);
      if before.Some? then before else if children[n].profile == id then Some(children[n].value) else None
  }

  /** All children of a profile. */
  function AllOf<T>(children: seq<Child<T>>, id: nat): seq<T> {
    if children == [] then []
    else
      var n := |children| - 1;
      AllOf(children[..n], id) + (if children[n].profile == id then [children[n].value] else [])
  }

  /** The first row that is current. */
  function Current(profiles: seq<ProfileRow>): Option<nat> {
    if profiles == [] then None
    else
      var n := |profiles| - 1;
      var before := Current(profiles[..n]);
      if before.Some? then before else if profiles[n].current then Some(n) else None
  }

  function Load(t: Tables, id: nat): Aggregate
    requires id < |t.profiles|
  {
    Aggregate(t.profiles[id].root, FirstOf(t.targets, id), FirstOf(t.noGos, id), AllOf(t.keywords, id), FirstOf(t.scorings, id))
  }

  lemma {:induction false} CurrentInRange(profiles: seq<ProfileRow>)
    ensures Current(profiles).Some? ==> Current(profiles).value < |profiles| && profiles[Current(profiles).value].current
  {
    if profiles != [] {
      CurrentInRange(profiles[..|profiles| - 1]);
    }
  }

  /** The current aggregate, or the template of a workspace that was never configured. */
  function Base(t: Tables): Aggregate {
    CurrentInRange(t.profiles);
    var id := Current(t.profiles);
    if id.Some? then Load(t, id.value) else DefaultAggregate("")
  }

  // ----- writing -----

  function Demoted(profiles: seq<ProfileRow>): seq<ProfileRow> {
    seq(|profiles|, i requires 0 <= i < |profiles| => profiles[i].(current := false))
  }

  function NextVersion(profiles: seq<ProfileRow>): nat {
    CurrentInRange(profiles);
    var id := Current(profiles);
    if id.Some? then profiles[id.value].version + 1 else 1
  }

  function With<T>(children: seq<Child<T>>, id: nat, value: Option<T>): seq<Child<T>> {
    if value.Some? then children + [Child(id, value.value)] else children
  }

  function WithAll<T>(children: seq<Child<T>>, id: nat, values: seq<T>): seq<Child<T>> {
    if values == [] then children
    else WithAll(children, id, values[..|values| - 1]) + [Child(id, values[|values| - 1])]
  }

  /** The tables after a committed version; `a` is what the rows hold. */
  function Versioned(t: Tables, a: Aggregate): Tables {
    var id := |t.profiles|;
    Tables(Demoted(t.profiles) + [ProfileRow(a.root, NextVersion(t.profiles), true)],
           With(t.targets, id, a.target), With(t.noGos, id, a.noGo),
           WithAll(t.keywords, id, a.keywords), With(t.scorings, id, a.scoring))
  }

  /** One save; a failing insert rolls the whole transaction back. */
  function Saved(t: Tables, req: Request, fails: bool): Tables {
    if fails then t else Versioned(t, Stored(Merge(req, Base(t))))
  }

  class ProfileRepo {
    var tables: Tables

    constructor ()
      ensures tables == EMPTY
    {
      tables := EMPTY;
    }

    /** The transaction: demote, insert the root, insert the children one by one. The rows are only
        kept if every insert goes through. */
    method CreateVersion(agg: Aggregate, fails: bool) returns (ok: bool)
      modifies this
      ensures ok == !fails
      ensures tables == if fails then old(tables) else Versioned(old(tables), Stored(agg))
    {
      var a := Stored(agg);
      var id := |tables.profiles|;
      var version := 1;
      CurrentInRange(tables.profiles);
      var profiles := tables.profiles;
      var prev := Current(profiles);
      if prev.Some? {
        version := profiles[prev.value].version + 1;
        profiles := Demoted(profiles);
      } else {
        NoneIsCurrent(profiles);
      }
      profiles := profiles + [ProfileRow(a.root, version, true)];
      var targets, noGos, keywords, scorings := tables.targets, tables.noGos, tables.keywords, tables.scorings;
      if a.target.Some? {
        targets := targets + [Child(id, a.target.value)];
      }
      if a.noGo.Some? {
        noGos := noGos + [Child(id, a.noGo.value)];
      }
      for i := 0 to |a.keywords|
        invariant keywords == WithAll(tables.keywords, id, a.keywords[..i])
      {
        assert a.keywords[..i + 1][..i] == a.keywords[..i];
        keywords := keywords + [Child(id, a.keywords[i])];
      }
      TakeAll(a.keywords);
      if a.scoring.Some? {
        scorings := scorings + [Child(id, a.scoring.value)];
      }
      if fails {
        return false;
      }
      tables := Tables(profiles, targets, noGos, keywords, scorings);
      return true;
    }

    method Save(req: Request, fails: bool) returns (ok: bool)
      modifies this
      ensures ok == !fails && tables == Saved(old(tables), req, fails)
    {
      var base := Base(tables);
      ok := CreateVersion(Merge(req, base), fails);
    }
  }

  lemma {:induction false} NoneIsCurrent(profiles: seq<ProfileRow>)
    requires Current(profiles).None?
    ensures Demoted(profiles) == profiles
  {
    if profiles != [] {
      var n := |profiles| - 1;
      NoneIsCurrent(profiles[..n]);
      assert Demoted(profiles) == Demoted(profiles[..n]) + [profiles[n].(current := false)];
      assert profiles == profiles[..n] + [profiles[n]];
    }
  }

  // ----- the invariant -----

  /** Versions are 1..k in order, and exactly the last is current. */
  ghost predicate Versions(profiles: seq<ProfileRow>) {
    forall i :: 0 <= i < |profiles| ==> profiles[i].version == i + 1 && (profiles[i].current <==> i == |profiles| - 1)
  }

  /** Every child belongs to some version. */
  ghost predicate Belong<T>(children: seq<Child<T>>, profiles: nat) {
    forall i :: 0 <= i < |children| ==> children[i].profile < profiles
  }

  ghost predicate Inv(t: Tables) {
    && Versions(t.profiles)
    && Belong(t.targets, |t.profiles|) && Belong(t.noGos, |t.profiles|)
    && Belong(t.keywords, |t.profiles|) && Belong(t.scorings, |t.profiles|)
  }

  lemma CurrentIsLast(profiles: seq<ProfileRow>)
    requires Versions(profiles)
    ensures Current(profiles) == if profiles == [] then None else Some(|profiles| - 1)
    ensures NextVersion(profiles) == |profiles| + 1
  {
    CurrentInRange(profiles);
    if profiles != [] {
      CurrentInRange(profiles[..|profiles| - 1]);
    }
  }

  lemma {:induction false} NoneBelongs<T>(children: seq<Child<T>>, id: nat)
    requires Belong(children, id)
    ensures FirstOf(children, id) == None && AllOf(children, id) == []
  {
    if children != [] {
      NoneBelongs(children[..|children| - 1], id);
    }
  }

  lemma WithBelongs<T>(children: seq<Child<T>>, id: nat, value: Option<T>)
    requires Belong(children, id)
    ensures Belong(With(children, id, value), id + 1) && children <= With(children, id, value)
    ensures FirstOf(With(children, id, value), id) == value
    ensures forall older: nat :: older < id ==> FirstOf(With(children, id, value), older) == FirstOf(children, older)
  {
    NoneBelongs(children, id);
    if value.Some? {
      assert (children + [Child(id, value.value)])[..|children|] == children;
    }
  }

  lemma {:induction false} WithAllBelong<T>(children: seq<Child<T>>, id: nat, values: seq<T>)
    requires Belong(children, id)
    ensures Belong(WithAll(children, id, values), id + 1) && children <= WithAll(children, id, values)
    ensures AllOf(WithAll(children, id, values), id) == values
    ensures forall older: nat :: older < id ==> AllOf(WithAll(children, id, values), older) == AllOf(children, older)
  {
    if values == [] {
      NoneBelongs(children, id);
    } else {
      var n := |values| - 1;
      WithAllBelong(children, id, values[..n]);
      var init := WithAll(children, id, values[..n]);
      assert (init + [Child(id, values[n])])[..|init|] == init;
      assert values == values[..n] + [values[n]];
    }
  }

  /** What one committed version does: the tables stay sound, the new version loads as stored, every
      older version loads as before, and older rows only lose the current flag. */
  lemma VersionedIsSound(t: Tables, a: Aggregate)
    requires Inv(t)
    ensures Inv(Versioned(t, a)) && |Versioned(t, a).profiles| == |t.profiles| + 1
    ensures Load(Versioned(t, a), |t.profiles|) == a
    ensures Base(Versioned(t, a)) == a
  {
    CurrentIsLast(t.profiles);
    WithBelongs(t.targets, |t.profiles|, a.target);
    WithBelongs(t.noGos, |t.profiles|, a.noGo);
    WithAllBelong(t.keywords, |t.profiles|, a.keywords);
    WithBelongs(t.scorings, |t.profiles|, a.scoring);
    CurrentIsLast(Versioned(t, a).profiles);
  }

  /** Rows of the older tables are still there, with nothing changed but the flag. */
  ghost predicate Kept(t: Tables, after: Tables) {
    && |t.profiles| <= |after.profiles|
    && (forall i :: 0 <= i < |t.profiles| ==> after.profiles[i].root == t.profiles[i].root && after.profiles[i].version == t.profiles[i].version)
    && t.targets <= after.targets && t.noGos <= after.noGos && t.keywords <= after.keywords && t.scorings <= after.scorings
  }

  lemma VersionedKeeps(t: Tables, a: Aggregate)
    requires Inv(t)
    ensures Kept(t, Versioned(t, a))
  {
    WithBelongs(t.targets, |t.profiles|, a.target);
    WithBelongs(t.noGos, |t.profiles|, a.noGo);
    WithAllBelong(t.keywords, |t.profiles|, a.keywords);
    WithBelongs(t.scorings, |t.profiles|, a.scoring);
  }

  lemma OlderLoadsAsBefore(t: Tables, a: Aggregate, older: nat)
    requires Inv(t) && older < |t.profiles|
    ensures Load(Versioned(t, a), older) == Load(t, older)
  {
    WithBelongs(t.targets, |t.profiles|, a.target);
    WithBelongs(t.noGos, |t.profiles|, a.noGo);
    WithAllBelong(t.keywords, |t.profiles|, a.keywords);
    WithBelongs(t.scorings, |t.profiles|, a.scoring);
  }

  // ----- over any run of saves -----

  /** Requests, each with whether its transaction fails. */
  function Run(saves: seq<(Request, bool)>): Tables {
    if saves == [] then EMPTY
    else
      var n := |saves| - 1;
      Saved(Run(saves[..n]), saves[n].0, saves[n].1)
  }

  function Successes(saves: seq<(Request, bool)>): nat {
    if saves == [] then 0
    else
      var n := |saves| - 1;
      Successes(saves[..n]) + if saves[n].1 then 0 else 1
  }

  /** After k successful saves the versions are exactly 1..k, version k is the one current, and every
      child belongs to a version. */
  lemma {:induction false} VersionsAreExact(saves: seq<(Request, bool)>)
    ensures Inv(Run(saves)) && |Run(saves).profiles| == Successes(saves)
  {
    if saves != [] {
      var n := |saves| - 1;
      VersionsAreExact(saves[..n]);
      if !saves[n].1 {
        VersionedIsSound(Run(saves[..n]), Stored(Merge(saves[n].0, Base(Run(saves[..n])))));
      }
    }
  }

  lemma LastSaveKeeps(saves: seq<(Request, bool)>, older: nat)
    requires saves != [] && older < |Run(saves[..|saves| - 1]).profiles|
    ensures var before := Run(saves[..|saves| - 1]);
            Kept(before, Run(saves)) && Load(Run(saves), older) == Load(before, older)
  {
    var n := |saves| - 1;
    VersionsAreExact(saves[..n]);
    if !saves[n].1 {
      var a := Stored(Merge(saves[n].0, Base(Run(saves[..n]))));
      VersionedKeeps(Run(saves[..n]), a);
      OlderLoadsAsBefore(Run(saves[..n]), a, older);
    }
  }

  /** History stays: a version loads the same after any number of later saves, its rows and its
      children are still the same ones, and only its current flag may have gone. */
  lemma {:induction false} HistoryStays(saves: seq<(Request, bool)>, n: nat, version: nat)
    requires n <= |saves| && version < |Run(saves[..n]).profiles|
    ensures Kept(Run(saves[..n]), Run(saves))
    ensures Load(Run(saves), version) == Load(Run(saves[..n]), version)
  {
    if n < |saves| {
      TakeTake(saves, n);
      HistoryStays(saves[..|saves| - 1], n, version);
      LastSaveKeeps(saves, version);
    } else {
      TakeAll(saves);
    }
  }

  /** In every reachable state the base of the next save has no zero where a default is declared. */
  lemma {:induction false} BaseIsComplete(saves: seq<(Request, bool)>)
    ensures Complete(Base(Run(saves)))
  {
    if saves == [] {
      TemplateIsComplete("");
    } else {
      var n := |saves| - 1;
      BaseIsComplete(saves[..n]);
      VersionsAreExact(saves[..n]);
      if !saves[n].1 {
        StoredIsComplete(saves[n].0, Base(Run(saves[..n])));
        VersionedIsSound(Run(saves[..n]), Stored(Merge(saves[n].0, Base(Run(saves[..n])))));
      }
    }
  }

  /** What a successful save leaves current is the request merged over what was current, exactly when
      the request sets no field that declares a default to its zero value; such a zero comes back as
      the default. */
  lemma {:induction false} SaveLoadsBack(saves: seq<(Request, bool)>, req: Request)
    ensures var merged := Merge(req, Base(Run(saves)));
            var after := Saved(Run(saves), req, false);
            && Base(after) == Stored(merged)
            && (Base(after) == merged <==> AsksNoZero(req))
  {
    VersionsAreExact(saves);
    var merged := Merge(req, Base(Run(saves)));
    VersionedIsSound(Run(saves), Stored(merged));
    StoredIsTrue(merged);
    BaseIsComplete(saves);
    MergeZeroIff(req, Base(Run(saves)));
  }

  const DELIVERY_RISK := 6

  /** Only the weight of the delivery risk is asked for, as zero. */
  function NoDeliveryRisk(): Request {
    Request(RootRequest("Acme", None, None, None, None, None, None, None, None, None, None, None), None, None, None,
            Some(ScoringRequest([None, None, None, None, None, None, Some(0)])))
  }

  /** A witness: saved as the first profile, a weight of 0 loads back as 10. */
  lemma ZeroWeightComesBack()
    ensures !AsksNoZero(NoDeliveryRisk())
    ensures var scoring := Base(Saved(EMPTY, NoDeliveryRisk(), false)).scoring;
            scoring.Some? && |scoring.value.values| > DELIVERY_RISK && scoring.value.values[DELIVERY_RISK] == 10
  {
    var merged := Merge(NoDeliveryRisk(), Base(EMPTY));
    assert NoDeliveryRisk().scoring.value.values[DELIVERY_RISK] == Some(0);
    assert merged.scoring.value.values[DELIVERY_RISK] == 0;
    VersionedIsSound(EMPTY, Stored(merged));
  }

  /** The same request saved twice leaves the same content as once, in a version of its own. */
  lemma {:induction false} SavingTwiceIsSavingOnce(saves: seq<(Request, bool)>, req: Request)
    ensures var once := Saved(Run(saves), req, false);
            var twice := Saved(once, req, false);
            Base(twice) == Base(once) && |twice.profiles| == |once.profiles| + 1
  {
    VersionsAreExact(saves);
    var base := Base(Run(saves));
    VersionedIsSound(Run(saves), Stored(Merge(req, base)));
    StoredMergeTwice(req, base);
    VersionedIsSound(Saved(Run(saves), req, false), Stored(Merge(req, Stored(Merge(req, base)))));
  }
}
