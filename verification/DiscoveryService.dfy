/** The discovery service as it runs: one trigger and one pipeline, with what others commit to the
    tables at the points where this one does not look. */
module DiscoveryService {
  import opened Text
  import opened DiscoveryRuns
  import Dedup

  /** What happens around one candidate: others' tenders land between its lookup and its insert,
      and each database call and the scoring may fail. */
  datatype Weather = Weather(lookupFails: bool, others: seq<Dedup.Tender>, createFails: bool, scoreFails: bool)

  /** The database calls of one trigger that fail, other than by the unique index. */
  datatype StartFaults = StartFaults(lookUp: bool, create: bool, reRead: bool)

  /** The database calls of one execution that fail. */
  datatype RunFaults = RunFaults(fetch: bool, mark: bool, finish: bool)

  /** Others bring in the key between the lookup and the insert. */
  ghost predicate BroughtIn(others: seq<RunRow>, key: Option<string>) {
    exists k :: 0 <= k < |others| && others[k].key == key
  }

  ghost predicate Settled(tenders: Dedup.Tenders, next: nat, known: set<string>, candidates: seq<Dedup.Candidate>, done: seq<Dedup.Outcome>) {
    && |done| <= |candidates|
    && forall k :: 0 <= k < |done| ==> Dedup.Settled(tenders, next, {}, known, {}, candidates[k], done[k])
  }

  /** Only insertions, so what was held stays held. */
  ghost predicate Grows(before: Dedup.Tenders, next: nat, tenders: Dedup.Tenders) {
    && (forall id :: id in before ==> id in tenders && tenders[id] == before[id])
    && (forall id :: id in tenders && id !in before ==> id >= next)
  }

  lemma GrownHolds(before: Dedup.Tenders, next: nat, tenders: Dedup.Tenders, key: string)
    requires Grows(before, next, tenders) && Dedup.Held(before, key)
    ensures Dedup.Held(tenders, key)
  {
    var id :| id in before && before[id].key == Some(key);
    assert tenders[id].key == Some(key);
  }

  lemma GrownSettled(before: Dedup.Tenders, next: nat, tenders: Dedup.Tenders, next': nat, known: set<string>,
                     candidates: seq<Dedup.Candidate>, done: seq<Dedup.Outcome>)
    requires Grows(before, next, tenders) && next <= next' && Settled(before, next, known, candidates, done)
    ensures Settled(tenders, next', known, candidates, done)
  {
    forall k | 0 <= k < |done| ensures Dedup.Settled(tenders, next', {}, known, {}, candidates[k], done[k]) {
      if Dedup.Held(before, candidates[k].key) {
        GrownHolds(before, next, tenders, candidates[k].key);
      }
    }
  }

  lemma GrowsOn(a: Dedup.Tenders, n: nat, b: Dedup.Tenders, m: nat, c: Dedup.Tenders)
    requires Grows(a, n, b) && Grows(b, m, c) && n <= m
    ensures Grows(a, n, c)
  {
  }

  /** All keys known when the run began are held all along. */
  ghost predicate Knows(known: set<string>, tenders: Dedup.Tenders) {
    forall key :: key in known ==> Dedup.Held(tenders, key)
  }

  lemma GrownKnows(before: Dedup.Tenders, next: nat, tenders: Dedup.Tenders, known: set<string>)
    requires Grows(before, next, tenders) && Knows(known, before)
    ensures Knows(known, tenders)
  {
    forall key | key in known ensures Dedup.Held(tenders, key) {
      GrownHolds(before, next, tenders, key);
    }
  }

  lemma SettledSnoc(tenders: Dedup.Tenders, next: nat, known: set<string>, candidates: seq<Dedup.Candidate>,
                    done: seq<Dedup.Outcome>, outcome: Dedup.Outcome)
    requires Settled(tenders, next, known, candidates, done) && |done| < |candidates|
    requires Dedup.Settled(tenders, next, {}, known, {}, candidates[|done|], outcome)
    ensures Settled(tenders, next, known, candidates, done + [outcome])
  {
  }

  lemma TallySnoc(done: seq<Dedup.Outcome>, outcome: Dedup.Outcome)
    ensures Dedup.Tally(done + [outcome]).0 == Dedup.Tally(done).0 + (if outcome.Saved? then 1 else 0)
    ensures Dedup.Tally(done + [outcome]).1 == Dedup.Tally(done).1 + (if outcome.Duplicate? then 1 else 0)
    ensures Dedup.Tally(done + [outcome]).2 == Dedup.Tally(done).2 + (if outcome.Unsaved? then 1 else 0)
  {
    assert (done + [outcome])[..|done|] == done;
  }

  /** Others bring in a tender with the key between the lookup and the insert. */
  ghost predicate KeyBrought(others: seq<Dedup.Tender>, key: string) {
    exists o :: o in others && o.key == Some(key)
  }

  /** The rows that are new hold tenders of the others. */
  ghost predicate OnlyFrom(before: Dedup.Tenders, tenders: Dedup.Tenders, others: seq<Dedup.Tender>) {
    forall id :: id in tenders && id !in before ==> tenders[id] in others
  }

  lemma OthersNext(before: Dedup.Tenders, tenders: Dedup.Tenders, next: nat, others: seq<Dedup.Tender>, i: nat, tenders': Dedup.Tenders,
                   key: string)
    requires i < |others| && OnlyFrom(before, tenders, others[..i]) && next !in tenders
    requires tenders' == if Dedup.Clashes(tenders, others[i]) then tenders else tenders[next := others[i]]
    ensures OnlyFrom(before, tenders', others[..i + 1])
    ensures Dedup.Held(tenders', key) <==> Dedup.Held(tenders, key) || others[i].key == Some(key)
    ensures KeyBrought(others[..i + 1], key) <==> KeyBrought(others[..i], key) || others[i].key == Some(key)
  {
    assert others[..i + 1] == others[..i] + [others[i]];
    if Dedup.Clashes(tenders, others[i]) {
      Dedup.HeldKeysAreHeld(tenders, others[i].key.value);
    } else {
      Dedup.AddedHolds(tenders, next, others[i], key);
    }
  }

  // ----- what a batch adds to the table -----

  /** A candidate before the n-th was saved as row `id`. */
  ghost predicate SavedAs(done: seq<Dedup.Outcome>, id: nat) {
    exists j :: 0 <= j < |done| && done[j] == Dedup.Saved(id)
  }

  /** The tender came in beside one of the first `n` candidates. */
  ghost predicate CameIn(weather: nat -> Weather, n: nat, t: Dedup.Tender) {
    exists j: nat :: j < n && t in weather(j).others
  }

  /** Every new row is one this run saved or one of the others'. */
  ghost predicate RowsExplained(before: Dedup.Tenders, tenders: Dedup.Tenders, weather: nat -> Weather, done: seq<Dedup.Outcome>) {
    forall id :: id in tenders && id !in before ==> SavedAs(done, id) || CameIn(weather, |done|, tenders[id])
  }

  /** Every saved candidate has its own new row. */
  ghost predicate RowsOwned(before: Dedup.Tenders, tenders: Dedup.Tenders, candidates: seq<Dedup.Candidate>, done: seq<Dedup.Outcome>) {
    && |done| <= |candidates|
    && (forall k :: 0 <= k < |done| && done[k].Saved? ==>
          done[k].id in tenders && done[k].id !in before && tenders[done[k].id] == Dedup.TenderOf(candidates[k]))
    && forall j, k :: 0 <= j < k < |done| && done[j].Saved? ==> done[j] != done[k]
  }

  /** A candidate saved before the k-th has the key. */
  ghost predicate SavedKey(candidates: seq<Dedup.Candidate>, done: seq<Dedup.Outcome>, k: nat, key: string)
    requires |done| <= |candidates|
  {
    exists j: nat :: j < k && j < |done| && done[j].Saved? && candidates[j].key == key
  }

  /** Others brought the key in beside one of the first `n` candidates. */
  ghost predicate KeyCameIn(weather: nat -> Weather, n: nat, key: string) {
    exists j: nat :: j < n && KeyBrought(weather(j).others, key)
  }

  /** Why candidate `k` ended as it did: a duplicate found its key in the table the run began with, saved
      by the run itself or brought in by others; a saved one found it in none of them; and only a
      failing call gives one up. */
  ghost predicate Explained(before: Dedup.Tenders, candidates: seq<Dedup.Candidate>, weather: nat -> Weather,
                            done: seq<Dedup.Outcome>, k: nat)
    requires k < |done| <= |candidates|
  {
    var key, w := candidates[k].key, weather(k);
    match done[k]
    case Duplicate =>
      key != "" && !w.lookupFails
      && (Dedup.Held(before, key) || SavedKey(candidates, done, k, key) || KeyCameIn(weather, k + 1, key))
    case Saved(_) =>
      !w.createFails
      && (key != "" ==> !w.lookupFails && !Dedup.Held(before, key) && !SavedKey(candidates, done, k, key) && !KeyBrought(w.others, key))
    case Unsaved => w.createFails || (key != "" && w.lookupFails)
  }

  /** What one candidate's outcome says of the table before and after it: a duplicate exactly when the
      key is there or brought in before the insert; given up exactly when a call fails that it comes
      to; saved, one new row with its title and key; and no other new row but the others'. */
  ghost predicate Reports(before: Dedup.Tenders, tenders: Dedup.Tenders, c: Dedup.Candidate, w: Weather, outcome: Dedup.Outcome) {
    && (outcome.Duplicate? <==>
          && !w.lookupFails && c.key != ""
          && (Dedup.Held(before, c.key) || (!w.createFails && KeyBrought(w.others, c.key))))
    && (outcome.Unsaved? <==>
          (c.key != "" && w.lookupFails) || (w.createFails && (c.key == "" || !Dedup.Held(before, c.key))))
    && (outcome.Saved? ==>
          outcome.id in tenders && outcome.id !in before && tenders[outcome.id] == Dedup.Tender(c.title, if c.key == "" then None else Some(c.key)))
    && forall id :: id in tenders && id !in before ==> outcome == Dedup.Saved(id) || tenders[id] in w.others
  }

  lemma RowsExplainedNext(before: Dedup.Tenders, mid: Dedup.Tenders, next: nat, tenders: Dedup.Tenders, c: Dedup.Candidate,
                          weather: nat -> Weather, done: seq<Dedup.Outcome>, outcome: Dedup.Outcome)
    requires RowsExplained(before, mid, weather, done)
    requires Grows(mid, next, tenders) && Reports(mid, tenders, c, weather(|done|), outcome)
    ensures RowsExplained(before, tenders, weather, done + [outcome])
  {
    var done' := done + [outcome];
    forall id | id in tenders && id !in before ensures SavedAs(done', id) || CameIn(weather, |done'|, tenders[id]) {
      if id in mid {
        if SavedAs(done, id) {
          var j :| 0 <= j < |done| && done[j] == Dedup.Saved(id);
          assert done'[j] == Dedup.Saved(id);
        }
      } else if outcome == Dedup.Saved(id) {
        assert done'[|done|] == Dedup.Saved(id);
      }
    }
  }

  lemma RowsOwnedNext(before: Dedup.Tenders, first: nat, mid: Dedup.Tenders, next: nat, tenders: Dedup.Tenders,
                      candidates: seq<Dedup.Candidate>, w: Weather, done: seq<Dedup.Outcome>, outcome: Dedup.Outcome)
    requires |done| < |candidates| && RowsOwned(before, mid, candidates, done)
    requires Grows(before, first, mid) && Grows(mid, next, tenders) && Reports(mid, tenders, candidates[|done|], w, outcome)
    ensures RowsOwned(before, tenders, candidates, done + [outcome])
  {
  }

  /** A key in the table as candidate `|done|` finds it was there before, or came with a row since. */
  lemma HeldSince(before: Dedup.Tenders, mid: Dedup.Tenders, candidates: seq<Dedup.Candidate>, weather: nat -> Weather,
                  done: seq<Dedup.Outcome>, key: string)
    requires RowsExplained(before, mid, weather, done) && RowsOwned(before, mid, candidates, done)
    requires key != "" && Dedup.Held(mid, key)
    requires forall id :: id in before ==> id in mid && mid[id] == before[id]
    ensures Dedup.Held(before, key) || SavedKey(candidates, done, |done|, key) || KeyCameIn(weather, |done|, key)
  {
    var id :| id in mid && mid[id].key == Some(key);
    if id in before {
      assert before[id].key == Some(key);
    } else if SavedAs(done, id) {
      var j :| 0 <= j < |done| && done[j] == Dedup.Saved(id);
      assert candidates[j].key == key;
    } else {
      var j: nat :| j < |done| && mid[id] in weather(j).others;
      assert KeyBrought(weather(j).others, key);
    }
  }

  /** A key not in the table as candidate `|done|` finds it was not there before, nor saved since. */
  lemma NotHeldSince(before: Dedup.Tenders, first: nat, mid: Dedup.Tenders, candidates: seq<Dedup.Candidate>,
                     done: seq<Dedup.Outcome>, key: string)
    requires RowsOwned(before, mid, candidates, done) && Grows(before, first, mid)
    requires key != "" && !Dedup.Held(mid, key)
    ensures !Dedup.Held(before, key) && !SavedKey(candidates, done, |done|, key)
  {
    if Dedup.Held(before, key) {
      GrownHolds(before, first, mid, key);
    }
  }

  lemma ExplainedNext(before: Dedup.Tenders, first: nat, mid: Dedup.Tenders, tenders: Dedup.Tenders,
                      candidates: seq<Dedup.Candidate>, weather: nat -> Weather, done: seq<Dedup.Outcome>, outcome: Dedup.Outcome)
    requires |done| < |candidates| && RowsExplained(before, mid, weather, done) && RowsOwned(before, mid, candidates, done)
    requires Grows(before, first, mid) && Reports(mid, tenders, candidates[|done|], weather(|done|), outcome)
    ensures Explained(before, candidates, weather, done + [outcome], |done|)
  {
    var key, n := candidates[|done|].key, |done|;
    if key != "" {
      if Dedup.Held(mid, key) {
        HeldSince(before, mid, candidates, weather, done, key);
      } else {
        NotHeldSince(before, first, mid, candidates, done, key);
      }
      SavedKeyStays(candidates, done, outcome, n, key);
      if KeyCameIn(weather, n, key) {
        var j: nat :| j < n && KeyBrought(weather(j).others, key);
        assert j < n + 1;
      }
    }
  }

  lemma SavedKeyStays(candidates: seq<Dedup.Candidate>, done: seq<Dedup.Outcome>, outcome: Dedup.Outcome, k: nat, key: string)
    requires |done| < |candidates| && k <= |done|
    ensures SavedKey(candidates, done + [outcome], k, key) <==> SavedKey(candidates, done, k, key)
  {
    var done' := done + [outcome];
    if SavedKey(candidates, done, k, key) {
      var j: nat :| j < k && j < |done| && done[j].Saved? && candidates[j].key == key;
      assert done'[j].Saved?;
    }
  }

  ghost predicate AllExplained(before: Dedup.Tenders, candidates: seq<Dedup.Candidate>, weather: nat -> Weather, done: seq<Dedup.Outcome>) {
    |done| <= |candidates| && forall k :: 0 <= k < |done| ==> Explained(before, candidates, weather, done, k)
  }

  lemma ExplainedStays(before: Dedup.Tenders, candidates: seq<Dedup.Candidate>, weather: nat -> Weather,
                       done: seq<Dedup.Outcome>, outcome: Dedup.Outcome, k: nat)
    requires k < |done| < |candidates| && Explained(before, candidates, weather, done, k)
    ensures Explained(before, candidates, weather, done + [outcome], k)
  {
    SavedKeyStays(candidates, done, outcome, k, candidates[k].key);
    assert (done + [outcome])[k] == done[k];
  }

  lemma AllExplainedNext(before: Dedup.Tenders, candidates: seq<Dedup.Candidate>, weather: nat -> Weather,
                         done: seq<Dedup.Outcome>, outcome: Dedup.Outcome)
    requires |done| < |candidates| && AllExplained(before, candidates, weather, done)
    requires Explained(before, candidates, weather, done + [outcome], |done|)
    ensures AllExplained(before, candidates, weather, done + [outcome])
  {
    forall k | 0 <= k < |done| ensures Explained(before, candidates, weather, done + [outcome], k) {
      ExplainedStays(before, candidates, weather, done, outcome, k);
    }
  }

  lemma BatchNext(was: Dedup.Tenders, first: nat, before: Dedup.Tenders, next: nat, tenders: Dedup.Tenders,
                  candidates: seq<Dedup.Candidate>, weather: nat -> Weather, done: seq<Dedup.Outcome>, outcome: Dedup.Outcome)
    requires |done| < |candidates| && AllExplained(was, candidates, weather, done)
    requires RowsExplained(was, before, weather, done) && RowsOwned(was, before, candidates, done)
    requires Grows(was, first, before) && Grows(before, next, tenders) && first <= next
    requires Reports(before, tenders, candidates[|done|], weather(|done|), outcome)
    ensures Grows(was, first, tenders)
    ensures AllExplained(was, candidates, weather, done + [outcome])
    ensures RowsExplained(was, tenders, weather, done + [outcome]) && RowsOwned(was, tenders, candidates, done + [outcome])
  {
    GrowsOn(was, first, before, next, tenders);
    ExplainedNext(was, first, before, tenders, candidates, weather, done, outcome);
    AllExplainedNext(was, candidates, weather, done, outcome);
    RowsExplainedNext(was, before, next, tenders, candidates[|done|], weather, done, outcome);
    RowsOwnedNext(was, first, before, next, tenders, candidates, weather(|done|), done, outcome);
  }

  /** No call fails and nobody else is at work. */
  ghost predicate Undisturbed(weather: nat -> Weather, n: nat) {
    forall k: nat :: k < n ==> !weather(k).lookupFails && !weather(k).createFails && weather(k).others == []
  }

  /** In a batch that nothing disturbs, a candidate is saved exactly when it has no key, or is the first
      of its key and the table did not hold the key before. */
  lemma {:induction false} UndisturbedSaves(before: Dedup.Tenders, candidates: seq<Dedup.Candidate>, weather: nat -> Weather,
                                            done: seq<Dedup.Outcome>, k: nat)
    requires AllExplained(before, candidates, weather, done) && Undisturbed(weather, |done|) && k < |done|
    ensures done[k].Saved? <==>
              var key := candidates[k].key;
              key == "" || (!Dedup.Held(before, key) && forall j :: 0 <= j < k ==> candidates[j].key != key)
  {
    var key := candidates[k].key;
    assert Explained(before, candidates, weather, done, k);
    if key != "" && !Dedup.Held(before, key) && exists j :: 0 <= j < k && candidates[j].key == key {
      var j := FirstOfKey(candidates, k, key);
      UndisturbedSaves(before, candidates, weather, done, j);
    }
  }

  lemma {:induction false} FirstOfKey(candidates: seq<Dedup.Candidate>, k: nat, key: string) returns (j: nat)
    requires k <= |candidates| && exists i :: 0 <= i < k && candidates[i].key == key
    ensures j < k && candidates[j].key == key && forall i :: 0 <= i < j ==> candidates[i].key != key
  {
    j := k - 1;
    if exists i :: 0 <= i < k - 1 && candidates[i].key == key {
      j := FirstOfKey(candidates, k - 1, key);
    }
  }

  /** The rows a batch saved. */
  function SavedIds(done: seq<Dedup.Outcome>): set<nat> {
    if done == [] then {}
    else SavedIds(done[..|done| - 1]) + if done[|done| - 1].Saved? then {done[|done| - 1].id} else {}
  }

  lemma {:induction false} SavedIdsAre(done: seq<Dedup.Outcome>, id: nat)
    ensures id in SavedIds(done) <==> SavedAs(done, id)
  {
    if done != [] {
      var n := |done| - 1;
      SavedIdsAre(done[..n], id);
      if SavedAs(done[..n], id) {
        var j :| 0 <= j < n && done[..n][j] == Dedup.Saved(id);
        assert done[j] == Dedup.Saved(id);
      }
    }
  }

  /** The number saved is the number of rows the run added. */
  lemma {:induction false} SavedCountsRows(before: Dedup.Tenders, tenders: Dedup.Tenders, candidates: seq<Dedup.Candidate>,
                                           done: seq<Dedup.Outcome>)
    requires RowsOwned(before, tenders, candidates, done)
    ensures Dedup.Tally(done).0 == |SavedIds(done)|
    ensures SavedIds(done) <= tenders.Keys - before.Keys
  {
    if done != [] {
      var n := |done| - 1;
      SavedCountsRows(before, tenders, candidates, done[..n]);
      if done[n].Saved? {
        SavedIdsAre(done[..n], done[n].id);
      }
    }
  }

  /** How many saved candidates were not scored. */
  function Unscored(done: seq<Dedup.Outcome>, weather: nat -> Weather): nat {
    if done == [] then 0
    else
      var n := |done| - 1;
      Unscored(done[..n], weather) + if done[n].Saved? && weather(n).scoreFails then 1 else 0
  }

  lemma UnscoredSnoc(done: seq<Dedup.Outcome>, outcome: Dedup.Outcome, weather: nat -> Weather)
    ensures Unscored(done + [outcome], weather)
            == Unscored(done, weather) + if outcome.Saved? && weather(|done|).scoreFails then 1 else 0
  {
    assert (done + [outcome])[..|done|] == done;
  }

  predicate InFlight(row: RunRow) {
    row.status.Pending? || row.status.Running?
  }

  /** The newest run in flight. */
  function GetActive(rows: seq<RunRow>): (active: Option<nat>)
    ensures active.None? <==> forall i :: 0 <= i < |rows| ==> !InFlight(rows[i])
    ensures active.Some? ==>
              && active.value < |rows| && InFlight(rows[active.value])
              && forall i :: 0 <= i < |rows| && InFlight(rows[i]) ==> rows[i].startedAt <= rows[active.value].startedAt
  {
    if rows == [] then None
    else
      var n := |rows| - 1;
      var before := GetActive(rows[..n]);
      assert forall i :: 0 <= i < n ==> rows[i] == rows[..n][i];
      if InFlight(rows[n]) && (before.None? || rows[n].startedAt >= rows[before.value].startedAt) then Some(n) else before
  }

  class Discovery {
    var rows: seq<RunRow>
    var tenders: Dedup.Tenders
    var next: nat

    constructor ()
      ensures rows == [] && tenders == map[] && Dedup.TableInv(tenders, next)
    {
      rows, tenders, next := [], map[], 0;
    }

    /** The insert of a run row: refused by the unique index, or appended. */
    method CreateRow(row: RunRow) returns (ok: bool)
      requires Unique(rows)
      modifies this`rows
      ensures Unique(rows)
      ensures ok <==> !Clashes(old(rows), row.key)
      ensures rows == (if ok then old(rows) + [row] else old(rows))
    {
      ok := !Clashes(rows, row.key);
      if ok {
        UniqueSnoc(rows, row);
        rows := rows + [row];
      }
    }

    /** `others` are the rows other triggers insert between the lookup and the insert. With a real key
        the caller gets the one row of the key, unless a call fails that it cannot do without, and has
        started it exactly when nobody held the key before. Without one it starts a run unless the
        insert fails or its key is empty and taken. */
    method StartRun(key: Option<string>, now: nat, owner: Pid, others: seq<RunRow>, fails: StartFaults)
      returns (run: Option<nat>, started: bool)
      requires Unique(rows)
      modifies this`rows
      ensures Unique(rows) && old(rows) <= rows
      ensures started ==> run == Some(|rows| - 1) && |old(rows)| < |rows| && rows[|rows| - 1] == Fresh(key, now, owner)
      ensures run.Some? ==> run.value < |rows| && rows[run.value].key == key
      ensures HasKey(key) ==>
                var held := Find(old(rows), key.value).Some?;
                && (run.None? <==> fails.lookUp || (!held && (fails.create || (BroughtIn(others, key) && fails.reRead))))
                && (started <==> run.Some? && !held && !BroughtIn(others, key))
      ensures !HasKey(key) ==>
                && (started <==> run.Some?)
                && (started <==> !fails.create && !Clashes(old(rows), key) && !(key.Some? && BroughtIn(others, key)))
    {
      if HasKey(key) {
        if fails.lookUp {
          return None, false;
        }
        var existing := Find(rows, key.value);
        FindFinds(rows, key.value);
        if existing.Some? {
          return existing, false;
        }
      }
      OthersCreate(others, key);
      if fails.create {
        return None, false;
      }
      var row := Fresh(key, now, owner);
      ghost var before := rows;
      var ok := CreateRow(row);
      if ok {
        assert rows[..|rows| - 1] == before;
        return Some(|rows| - 1), true;
      }
      if HasKey(key) && !fails.reRead {
        FindFinds(rows, key.value);
        return Find(rows, key.value), false;
      }
      return None, false;
    }

    /** Other triggers insert their rows, as far as the index lets them. */
    method OthersCreate(others: seq<RunRow>, ghost key: Option<string>)
      requires Unique(rows)
      modifies this`rows
      ensures Unique(rows) && old(rows) <= rows
      ensures Clashes(rows, key) <==> Clashes(old(rows), key) || (key.Some? && BroughtIn(others, key))
    {
      ghost var was := rows;
      for i := 0 to |others|
        invariant Unique(rows) && was <= rows
        invariant Clashes(rows, key) <==> Clashes(was, key) || (key.Some? && BroughtIn(others[..i], key))
      {
        ghost var before := rows;
        var ok := CreateRow(others[i]);
        ClashAfter(before, rows, others[i], key);
        BroughtInNext(others, i, key);
      }
      assert others[..|others|] == others;
    }

    /** The insert of a tender: refused by the unique index on its key, or stored under a new id. */
    method CreateTender(t: Dedup.Tender) returns (ok: bool)
      requires Dedup.TableInv(tenders, next)
      modifies this`tenders, this`next
      ensures Dedup.TableInv(tenders, next)
      ensures ok <==> !Dedup.Clashes(old(tenders), t)
      ensures if ok then tenders == old(tenders)[old(next) := t] && next == old(next) + 1
              else tenders == old(tenders) && next == old(next)
    {
      ok := !Dedup.Clashes(tenders, t);
      if ok {
        Dedup.AddedTable(tenders, next, t);
        tenders, next := tenders[next := t], next + 1;
      }
    }

    method OthersAdd(others: seq<Dedup.Tender>, ghost key: string)
      requires Dedup.TableInv(tenders, next)
      modifies this`tenders, this`next
      ensures Dedup.TableInv(tenders, next)
      ensures old(next) <= next && Grows(old(tenders), old(next), tenders)
      ensures OnlyFrom(old(tenders), tenders, others)
      ensures Dedup.Held(tenders, key) <==> Dedup.Held(old(tenders), key) || KeyBrought(others, key)
    {
      ghost var was := tenders;
      for i := 0 to |others|
        invariant Dedup.TableInv(tenders, next)
        invariant old(next) <= next && Grows(was, old(next), tenders)
        invariant OnlyFrom(was, tenders, others[..i])
        invariant Dedup.Held(tenders, key) <==> Dedup.Held(was, key) || KeyBrought(others[..i], key)
      {
        ghost var before, id := tenders, next;
        var ok := CreateTender(others[i]);
        OthersNext(was, before, id, others, i, tenders, key);
      }
      assert others[..|others|] == others;
    }

    /** One candidate. It is a duplicate exactly when its key is in the table, from before or brought in
        by others before the insert; saved, it is the one new row that is not of the others. What it
        reports of a keyed candidate holds of the table afterwards. */
    method PersistCandidate(c: Dedup.Candidate, w: Weather, ghost known: set<string>) returns (outcome: Dedup.Outcome)
      requires Dedup.TableInv(tenders, next) && Knows(known, tenders)
      modifies this`tenders, this`next
      ensures Dedup.TableInv(tenders, next)
      ensures old(next) <= next && Grows(old(tenders), old(next), tenders)
      ensures Dedup.Settled(tenders, next, {}, known, {}, c, outcome)
      ensures Reports(old(tenders), tenders, c, w, outcome)
    {
      if c.key != "" {
        if w.lookupFails {
          return Dedup.Unsaved;
        }
        Dedup.HeldKeysAreHeld(tenders, c.key);
        if c.key in Dedup.HeldKeys(tenders) {
          return Dedup.Duplicate;
        }
      }
      OthersAdd(w.others, c.key);
      GrownKnows(old(tenders), old(next), tenders, known);
      if w.createFails {
        return Dedup.Unsaved;
      }
      ghost var before, id := tenders, next;
      var ok := CreateTender(Dedup.TenderOf(c));
      Dedup.HeldKeysAreHeld(before, c.key);
      if ok {
        assert tenders[id] == Dedup.TenderOf(c);
        GrowsOn(old(tenders), old(next), before, id, tenders);
        return Dedup.Saved(next - 1);
      }
      return Dedup.Duplicate;
    }

    /** The pipeline over a collected batch: one failing candidate does not stop the rest, and the
        counters tell the outcomes. `errs` counts what was not saved and what was not scored. */
    method RunOnce(candidates: seq<Dedup.Candidate>, weather: nat -> Weather)
      returns (saved: nat, duplicates: nat, errs: nat, ghost done: seq<Dedup.Outcome>)
      requires Dedup.TableInv(tenders, next)
      modifies this`tenders, this`next
      ensures Dedup.TableInv(tenders, next)
      ensures old(next) <= next && Grows(old(tenders), old(next), tenders)
      ensures |done| == |candidates| && Settled(tenders, next, Dedup.HeldKeys(old(tenders)), candidates, done)
      ensures AllExplained(old(tenders), candidates, weather, done)
      ensures RowsOwned(old(tenders), tenders, candidates, done) && RowsExplained(old(tenders), tenders, weather, done)
      ensures saved == Dedup.Tally(done).0 == |SavedIds(done)| && duplicates == Dedup.Tally(done).1
      ensures errs == Dedup.Tally(done).2 + Unscored(done, weather)
    {
      ghost var was, known := tenders, Dedup.HeldKeys(tenders);
      saved, duplicates, errs, done := 0, 0, 0, [];
      forall key | key in known ensures Dedup.Held(tenders, key) {
        Dedup.HeldKeysAreHeld(tenders, key);
      }
      for i := 0 to |candidates|
        invariant Dedup.TableInv(tenders, next) && Knows(known, tenders)
        invariant old(next) <= next && Grows(was, old(next), tenders)
        invariant |done| == i && Settled(tenders, next, known, candidates, done)
        invariant AllExplained(was, candidates, weather, done)
        invariant RowsOwned(was, tenders, candidates, done) && RowsExplained(was, tenders, weather, done)
        invariant saved == Dedup.Tally(done).0 && duplicates == Dedup.Tally(done).1
        invariant errs == Dedup.Tally(done).2 + Unscored(done, weather)
      {
        ghost var before, id := tenders, next;
        var outcome := PersistCandidate(candidates[i], weather(i), known);
        GrownSettled(before, id, tenders, next, known, candidates, done);
        GrownKnows(before, id, tenders, known);
        SettledSnoc(tenders, next, known, candidates, done, outcome);
        BatchNext(was, old(next), before, id, tenders, candidates, weather, done, outcome);
        TallySnoc(done, outcome);
        UnscoredSnoc(done, outcome, weather);
        done := done + [outcome];
        match outcome {
          case Unsaved =>
            errs := errs + 1;
          case Duplicate =>
            duplicates := duplicates + 1;
          case Saved(_) =>
            saved := saved + 1;
            if weather(i).scoreFails {
              errs := errs + 1;
            }
        }
      }
      SavedCountsRows(was, tenders, candidates, done);
    }

    /** A started run, to its end. `collected` is none when the crawl failed. The run fails exactly
        when nothing was found, old or new, and something went wrong. If the row cannot be fetched or
        marked nothing is done at all; if the end cannot be written the row stays running. */
    method ExecuteRun(id: nat, collected: Option<seq<Dedup.Candidate>>, weather: nat -> Weather, now: nat, fails: RunFaults)
      returns (ok: bool, duplicates: nat, errs: nat, ghost done: seq<Dedup.Outcome>)
      requires id < |rows| && Dedup.TableInv(tenders, next)
      modifies this
      ensures Dedup.TableInv(tenders, next)
      ensures ok <==> !fails.fetch && !fails.mark && !fails.finish
      ensures |rows| == |old(rows)| && forall j :: 0 <= j < |rows| && j != id ==> rows[j] == old(rows[j])
      ensures fails.fetch || fails.mark ==> rows == old(rows) && tenders == old(tenders)
      ensures !fails.fetch && !fails.mark && fails.finish ==> rows[id] == old(rows)[id].(status := Running)
      ensures ok ==>
                && Terminal(rows[id].status)
                && rows[id] == old(rows)[id].(status := rows[id].status, finishedAt := Some(now), found := rows[id].found)
                && (rows[id].status.Failed? <==> rows[id].found == 0 && duplicates == 0 && errs > 0)
      ensures ok && collected.None? ==> rows[id].status.Failed? && tenders == old(tenders)
      ensures ok && collected.Some? ==>
                && |done| == |collected.value| && AllExplained(old(tenders), collected.value, weather, done)
                && RowsOwned(old(tenders), tenders, collected.value, done)
                && rows[id].found == |SavedIds(done)| && duplicates == Dedup.Tally(done).1
                && errs == Dedup.Tally(done).2 + Unscored(done, weather)
    {
      duplicates, errs, done := 0, 0, [];
      if fails.fetch {
        return false, 0, 0, [];
      }
      var run := rows[id].(status := Running);
      if fails.mark {
        return false, 0, 0, [];
      }
      rows := rows[id := run];
      var saved: nat;
      if collected.Some? {
        saved, duplicates, errs, done := RunOnce(collected.value, weather);
      } else {
        saved, duplicates, errs := 0, 0, 1;
      }
      run := run.(finishedAt := Some(now), found := saved);
      if saved == 0 && duplicates == 0 && errs > 0 {
        run := run.(status := Failed);
      } else {
        run := run.(status := Success);
      }
      if fails.finish {
        return false, duplicates, errs, done;
      }
      rows := rows[id := run];
      ok := true;
    }

    /** A trigger, with the execution it launches. Nothing is started while a run is in flight or no
        source can be crawled; an execution is launched exactly when this call started the run, so
        never for a key that has one; and otherwise the answer is that of the start. */
    method RunAsync(key: Option<string>, now: nat, owner: Pid, others: seq<RunRow>, lookFails: bool, crawlable: Option<nat>,
                    fails: StartFaults, collected: Option<seq<Dedup.Candidate>>, weather: nat -> Weather, end: nat, runFails: RunFaults)
      returns (run: Option<nat>, launched: bool)
      requires Unique(rows) && Dedup.TableInv(tenders, next)
      modifies this
      ensures Unique(rows) && Dedup.TableInv(tenders, next)
      ensures !lookFails && GetActive(old(rows)).Some? ==> run == GetActive(old(rows)) && !launched && rows == old(rows)
      ensures (lookFails || GetActive(old(rows)).None?) && (crawlable.None? || crawlable.value == 0) ==> run.None? && !launched && rows == old(rows)
      ensures launched ==>
                && run.Some? && |old(rows)| <= run.value < |rows|
                && rows[run.value].key == key && rows[run.value].owner == owner
                && (Terminal(rows[run.value].status) <==> !runFails.fetch && !runFails.mark && !runFails.finish)
      ensures (lookFails || GetActive(old(rows)).None?) && crawlable.Some? && crawlable.value > 0 ==>
                if HasKey(key) then
                  var held := Find(old(rows), key.value).Some?;
                  && (run.None? <==> fails.lookUp || (!held && (fails.create || (BroughtIn(others, key) && fails.reRead))))
                  && (launched <==> run.Some? && !held && !BroughtIn(others, key))
                else
                  && (launched <==> run.Some?)
                  && (launched <==> !fails.create && !Clashes(old(rows), key) && !(key.Some? && BroughtIn(others, key)))
      ensures !launched ==> old(rows) <= rows && tenders == old(tenders)
    {
      if !lookFails {
        var active := GetActive(rows);
        if active.Some? {
          return active, false;
        }
      }
      if crawlable.None? || crawlable.value == 0 {
        return None, false;
      }
      run, launched := StartRun(key, now, owner, others, fails);
      if launched {
        ghost var started := rows;
        var _, _, _, _ := ExecuteRun(run.value, collected, weather, end, runFails);
        SavedStaysUnique(started, rows, run.value);
      }
    }
  }

  lemma BroughtInNext(others: seq<RunRow>, i: nat, key: Option<string>)
    requires i < |others|
    ensures BroughtIn(others[..i + 1], key) <==> BroughtIn(others[..i], key) || others[i].key == key
  {
    if BroughtIn(others[..i], key) {
      var k :| 0 <= k < i && others[..i][k].key == key;
      assert others[..i + 1][k].key == key;
    } else if others[i].key == key {
      assert others[..i + 1][i].key == key;
    }
  }

  lemma SavedStaysUnique(before: seq<RunRow>, rows: seq<RunRow>, r: nat)
    requires Unique(before) && |rows| == |before| && r < |rows| && rows[r].key == before[r].key
    requires forall j :: 0 <= j < |rows| && j != r ==> rows[j] == before[j]
    ensures Unique(rows)
  {
  }

  lemma ClashAfter(before: seq<RunRow>, rows: seq<RunRow>, row: RunRow, key: Option<string>)
    requires rows == if Clashes(before, row.key) then before else before + [row]
    ensures Clashes(rows, key) <==> Clashes(before, key) || (key.Some? && row.key == key)
  {
    assert (before + [row])[..|before|] == before;
  }
}
