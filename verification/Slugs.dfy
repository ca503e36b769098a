/** Public-link slugs: `slugify`, and the search for a free slug among
    base, base-2, base-3, ... */
module Slugs {
  import opened Collections
  import opened Text

  // ----- slugify -----

  predicate IsAlnum(c: char) {
    'a' <= c <= 'z' || '0' <= c <= '9'
  }

  /** Replace each maximal run of characters outside [a-z0-9] by one dash; `inRun`
      says that the run at the front has already been replaced. */
  function CollapseRuns(s: string, inRun: bool): string {
    if s == "" then ""
    else if IsAlnum(s[0]) then [s[0]] + CollapseRuns(s[1..], false)
    else (if inRun then "" else "-") + CollapseRuns(s[1..], true)
  }

  function Slugify(s: string): string {
    Trim(CollapseRuns(ToLower(TrimSpace(s)), false), IsDash)
  }

  /** How many alphanumeric characters `s` starts with. */
  function RunLength(s: string): (k: nat)
    ensures k <= |s|
    ensures forall i :: 0 <= i < k ==> IsAlnum(s[i])
    ensures k < |s| ==> !IsAlnum(s[k])
  {
    if s != "" && IsAlnum(s[0]) then 1 + RunLength(s[1..]) else 0
  }

  /** The maximal alphanumeric runs of `s`, left to right. */
  function Words(s: string): seq<string>
    decreases |s|
  {
    var k := RunLength(s);
    if s == "" then []
    else if k == 0 then Words(s[1..])
    else [s[..k]] + Words(s[k..])
  }

  predicate IsWord(w: string) {
    w != "" && forall i :: 0 <= i < |w| ==> IsAlnum(w[i])
  }

  function Join(ws: seq<string>): string {
    if |ws| == 0 then "" else if |ws| == 1 then ws[0] else ws[0] + "-" + Join(ws[1..])
  }

  /** What a slug looks like: words joined by single dashes. */
  ghost predicate IsSlug(s: string) {
    exists ws: seq<string> :: (forall w :: w in ws ==> IsWord(w)) && s == Join(ws)
  }

  lemma {:induction false} WordsAreWords(s: string)
    ensures forall w :: w in Words(s) ==> IsWord(w)
    decreases |s|
  {
    if s != "" {
      var k := RunLength(s);
      WordsAreWords(if k == 0 then s[1..] else s[k..]);
    }
  }

  lemma {:induction false} JoinEnds(ws: seq<string>)
    requires forall w :: w in ws ==> IsWord(w)
    ensures ws == [] <==> Join(ws) == ""
    ensures ws != [] ==> IsAlnum(Join(ws)[0]) && IsAlnum(Join(ws)[|Join(ws)| - 1])
  {
    if |ws| > 0 {
      assert IsWord(ws[0]);
      if |ws| > 1 {
        JoinEnds(ws[1..]);
        var s, t := Join(ws), Join(ws[1..]);
        assert s[|s| - 1] == t[|t| - 1];
      }
    }
  }

  lemma {:induction false} CollapseWord(w: string, rest: string, inRun: bool)
    requires forall i :: 0 <= i < |w| ==> IsAlnum(w[i])
    ensures CollapseRuns(w + rest, inRun) == w + CollapseRuns(rest, inRun && w == "")
  {
    if w == "" {
      assert w + rest == rest;
    } else {
      CollapseWord(w[1..], rest, false);
      assert (w + rest)[1..] == w[1..] + rest;
    }
  }

  /** The dash that collapsing leaves at the end of a text that has words but does not end in one. */
  function LooseEnd(s: string): string {
    if Words(s) != [] && !IsAlnum(s[|s| - 1]) then "-" else ""
  }

  /** Past the front, collapsing runs writes the words joined by dashes and the loose end. */
  lemma {:induction false} CollapseIsJoin(s: string)
    ensures CollapseRuns(s, true) == Join(Words(s)) + LooseEnd(s)
    decreases |s|
  {
    var k := RunLength(s);
    if s == "" {
    } else if k == 0 {
      CollapseIsJoin(s[1..]);
      LeadingGap(s);
    } else if k == |s| {
      CollapseWhole(s);
    } else {
      CollapseIsJoin(s[k..][1..]);
      CollapseWordThenGap(s[..k], s[k..]);
      assert s == s[..k] + s[k..];
    }
  }

  lemma LeadingGap(s: string)
    requires s != "" && !IsAlnum(s[0])
    ensures CollapseRuns(s, true) == CollapseRuns(s[1..], true)
    ensures Words(s) == Words(s[1..]) && LooseEnd(s) == LooseEnd(s[1..])
  {
  }

  lemma CollapseWhole(w: string)
    requires IsWord(w)
    ensures CollapseRuns(w, true) == Join(Words(w)) + LooseEnd(w)
  {
    CollapseWord(w, "", true);
    WordThenRest(w, "");
    assert w + "" == w && [w] + Words("") == [w];
  }

  lemma CollapseWordThenGap(w: string, gap: string)
    requires IsWord(w) && gap != "" && !IsAlnum(gap[0])
    requires CollapseRuns(gap[1..], true) == Join(Words(gap[1..])) + LooseEnd(gap[1..])
    ensures CollapseRuns(w + gap, true) == Join(Words(w + gap)) + LooseEnd(w + gap)
  {
    var ws, e := Words(gap[1..]), LooseEnd(gap[1..]);
    calc {
      CollapseRuns(w + gap, true);
      { CollapseWord(w, gap, true); }
      w + ("-" + (Join(ws) + e));
      { LooseEndAfterGap(w, gap); JoinCons(w, ws); }
      Join([w] + ws) + LooseEnd(w + gap);
      { WordThenRest(w, gap); }
      Join(Words(w + gap)) + LooseEnd(w + gap);
    }
  }

  lemma LooseEndAfterGap(w: string, gap: string)
    requires IsWord(w) && gap != "" && !IsAlnum(gap[0])
    ensures LooseEnd(w + gap) == if Words(gap[1..]) == [] then "-" else LooseEnd(gap[1..])
    ensures Words(gap[1..]) == [] ==> LooseEnd(gap[1..]) == ""
  {
    WordThenRest(w, gap);
    NoWords(gap[1..]);
    var n := |gap| - 1;
    assert (w + gap)[|w| + n] == gap[n];
    assert n > 0 ==> gap[n] == gap[1..][n - 1];
  }

  lemma JoinCons(w: string, ws: seq<string>)
    ensures Join([w] + ws) == w + (if ws == [] then "" else "-" + Join(ws))
  {
    assert ([w] + ws)[1..] == ws;
  }

  lemma {:induction false} NoWords(s: string)
    ensures Words(s) == [] <==> forall i :: 0 <= i < |s| ==> !IsAlnum(s[i])
    decreases |s|
  {
    if s != "" && RunLength(s) == 0 {
      NoWords(s[1..]);
      assert forall i :: 0 < i < |s| ==> s[i] == s[1..][i - 1];
    }
  }

  /** `Slugify` keeps exactly the words of the lower-cased text, joined by dashes. */
  lemma SlugifyIsWords(s: string)
    ensures Slugify(s) == Join(Words(ToLower(TrimSpace(s))))
    ensures IsSlug(Slugify(s))
  {
    var t := ToLower(TrimSpace(s));
    var j := Join(Words(t));
    CollapseIsJoin(t);
    WordsAreWords(t);
    JoinEnds(Words(t));
    var c := CollapseRuns(t, false);
    assert c == CollapseRuns(t, true) || c == "-" + CollapseRuns(t, true);
    TrimDashes(c, j);
  }

  /** Where the joined words start between the dashes. */
  lemma JoinStarts(c: string, j: string) returns (off: nat)
    requires c == j || c == "-" + j || c == j + "-" || c == "-" + (j + "-")
    ensures off <= 1 && off + |j| <= |c| <= off + |j| + 1
    ensures c[off..off + |j|] == j
    ensures j != "" ==> c[off] == j[0] && c[off + |j| - 1] == j[|j| - 1]
    ensures (off == 1 ==> IsDash(c[0])) && (off + |j| < |c| ==> IsDash(c[off + |j|]))
  {
    off := if c == j || c == j + "-" then 0 else 1;
  }

  /** What trimming leaves is what stands between the dashes. */
  lemma DashesEnd(c: string, i: nat, k: nat, off: nat, n: nat)
    requires i <= k <= |c| && n > 0 && off <= 1 && off + n <= |c| <= off + n + 1
    requires !IsDash(c[off]) && !IsDash(c[off + n - 1])
    requires (off == 1 ==> IsDash(c[0])) && (off + n < |c| ==> IsDash(c[off + n]))
    requires Bare(c[i..k], IsDash) && forall x :: 0 <= x < i || k <= x < |c| ==> IsDash(c[x])
    ensures i == off && k == off + n
  {
    assert i <= off && off + n <= k;
    var t := c[i..k];
    assert t[0] == c[i] && t[|t| - 1] == c[k - 1];
  }

  lemma TrimDashes(c: string, j: string)
    requires Bare(j, IsDash)
    requires j == "" ==> c == "" || c == "-"
    requires c == j || c == "-" + j || c == j + "-" || c == "-" + (j + "-")
    ensures Trim(c, IsDash) == j
  {
    var i, k := TrimSplits(c, IsDash);
    if j != "" {
      var off := JoinStarts(c, j);
      DashesEnd(c, i, k, off, |j|);
    }
  }

  lemma {:induction false} WordsOfJoin(ws: seq<string>)
    requires forall w :: w in ws ==> IsWord(w)
    ensures Words(Join(ws)) == ws
  {
    if ws != [] {
      var w, rest := ws[0], ws[1..];
      assert IsWord(w) && ws == [w] + rest;
      WordsOfJoin(rest);
      JoinCons(w, rest);
      if rest == [] {
        WordThenRest(w, "");
      } else {
        WordThenRest(w, "-" + Join(rest));
        SkipDash(Join(rest));
      }
    }
  }

  lemma SkipDash(t: string)
    ensures Words("-" + t) == Words(t)
  {
    assert ("-" + t)[1..] == t;
  }

  lemma WordThenRest(w: string, rest: string)
    requires IsWord(w)
    requires rest != "" ==> !IsAlnum(rest[0])
    ensures Words(w + rest) == [w] + Words(rest)
  {
    var s := w + rest;
    var k := RunLength(s);
    assert forall i :: 0 <= i < |w| ==> s[i] == w[i];
    assert rest != "" ==> s[|w|] == rest[0];
    assert s[..k] == w && s[k..] == rest;
  }

  /** The same letter, in whichever case. */
  predicate SameLetter(c: char, d: char) {
    c == d || ('a' <= c <= 'z' && c as int == d as int + 32) || ('a' <= d <= 'z' && d as int == c as int + 32)
  }

  ghost predicate SameLetters(s: string, t: string) {
    |s| == |t| && forall i :: 0 <= i < |s| ==> SameLetter(s[i], t[i])
  }

  lemma {:induction false} TrimLeftSameLetters(s: string, t: string)
    requires SameLetters(s, t)
    ensures SameLetters(TrimLeft(s, IsSpace), TrimLeft(t, IsSpace))
  {
    if s != "" {
      assert SameLetter(s[0], t[0]);
      TrimLeftSameLetters(s[1..], t[1..]);
    }
  }

  lemma {:induction false} TrimRightSameLetters(s: string, t: string)
    requires SameLetters(s, t)
    ensures SameLetters(TrimRight(s, IsSpace), TrimRight(t, IsSpace))
  {
    if s != "" {
      var n := |s| - 1;
      assert SameLetter(s[n], t[n]);
      TrimRightSameLetters(s[..n], t[..n]);
    }
  }

  /** A slug does not depend on the case of the text it is made from. */
  lemma SlugIgnoresCase(s: string, t: string)
    requires SameLetters(s, t)
    ensures Slugify(s) == Slugify(t)
  {
    TrimLeftSameLetters(s, t);
    TrimRightSameLetters(TrimLeft(s, IsSpace), TrimLeft(t, IsSpace));
    assert ToLower(TrimSpace(s)) == ToLower(TrimSpace(t));
  }

  /** A slug is exactly a fixed point of `slugify`. */
  lemma SlugIsFixedPoint(s: string)
    ensures IsSlug(s) <==> Slugify(s) == s
  {
    if IsSlug(s) {
      var ws: seq<string> :| (forall w :: w in ws ==> IsWord(w)) && s == Join(ws);
      JoinChars(ws);
      JoinEnds(ws);
      TrimBare(s, IsSpace);
      assert ToLower(s) == s;
      WordsOfJoin(ws);
    }
    SlugifyIsWords(s);
  }

  lemma {:induction false} JoinChars(ws: seq<string>)
    requires forall w :: w in ws ==> IsWord(w)
    ensures forall i :: 0 <= i < |Join(ws)| ==> IsAlnum(Join(ws)[i]) || Join(ws)[i] == '-'
  {
    if |ws| > 0 {
      assert IsWord(ws[0]);
      if |ws| > 1 {
        JoinChars(ws[1..]);
      }
    }
  }

  // ----- the candidate sequence -----

  /** The k-th probe: base itself, then base-2, base-3, ... */
  function Candidate(base: string, k: nat): string {
    if k == 0 then base else base + "-" + Itoa(k + 1)
  }

  lemma CandidatesDiffer(base: string, j: nat, k: nat)
    requires Candidate(base, j) == Candidate(base, k)
    ensures j == k
  {
    if j > 0 && k > 0 {
      assert Candidate(base, j)[|base| + 1..] == Itoa(j + 1);
      assert Candidate(base, k)[|base| + 1..] == Itoa(k + 1);
      ItoaInjective(j + 1, k + 1);
    }
  }

  /** A candidate built from a non-empty slug is a non-empty slug. */
  lemma CandidateIsSlug(base: string, k: nat)
    requires IsSlug(base) && base != ""
    ensures IsSlug(Candidate(base, k)) && Candidate(base, k) != ""
  {
    if k > 0 {
      var ws: seq<string> :| (forall w :: w in ws ==> IsWord(w)) && base == Join(ws);
      var n := Itoa(k + 1);
      assert forall i :: 0 <= i < |n| ==> IsDigit(n[i]);
      assert IsWord(n);
      JoinSnoc(ws, n);
      assert forall w :: w in ws + [n] ==> IsWord(w);
      assert base + "-" + n == Join(ws + [n]);
    }
  }

  lemma {:induction false} JoinSnoc(ws: seq<string>, w: string)
    requires ws != []
    ensures Join(ws + [w]) == Join(ws) + "-" + w
  {
    if |ws| > 1 {
      JoinSnoc(ws[1..], w);
      assert (ws + [w])[1..] == ws[1..] + [w];
    } else {
      assert (ws + [w])[1..] == [w];
    }
  }

  /** The first `n` candidates are all taken. */
  ghost predicate TakenUpTo(base: string, taken: set<string>, n: nat) {
    forall j :: 0 <= j < n ==> Candidate(base, j) in taken
  }

  /** Candidates differ, so `n` of them can only all be taken if `n` slugs are. */
  lemma TakenProbes(base: string, taken: set<string>, n: nat)
    requires TakenUpTo(base, taken, n)
    ensures n <= |taken|
  {
    var probes := seq(n, k requires 0 <= k < n => Candidate(base, k));
    forall j, k | 0 <= j < k < n ensures probes[j] != probes[k] {
      if probes[j] == probes[k] {
        CandidatesDiffer(base, j, k);
      }
    }
    Pigeonhole(probes, taken);
  }

  lemma TakenNext(base: string, taken: set<string>, n: nat)
    requires TakenUpTo(base, taken, n) && Candidate(base, n) in taken
    ensures TakenUpTo(base, taken, n + 1) && n + 1 <= |taken|
  {
    TakenProbes(base, taken, n + 1);
  }

  /** The number of the first free candidate from `k` on, when all before are taken. */
  function FirstFree(base: string, taken: set<string>, k: nat): (n: nat)
    requires TakenUpTo(base, taken, k)
    ensures n <= |taken|
    ensures Candidate(base, n) !in taken
    ensures TakenUpTo(base, taken, n)
    decreases |taken| - k
  {
    TakenProbes(base, taken, k);
    if Candidate(base, k) !in taken then k
    else TakenProbes(base, taken, k + 1); FirstFree(base, taken, k + 1)
  }

  /** The base slug: from the wish, else from the title, else the random fallback. */
  function BaseSlug(desired: string, title: string, fallback: string): string {
    if Slugify(desired) != "" then Slugify(desired)
    else if Slugify(title) != "" then Slugify(title)
    else fallback
  }

  /** The last `k` hexadecimal digits of a UUID. */
  function HexDigits(uuid: nat, k: nat): string {
    if k == 0 then "" else HexDigits(uuid / 16, k - 1) + ["0123456789abcdef"[uuid % 16]]
  }

  /** The random slug for a form whose wish and title leave nothing: "form-" and eight digits. */
  function Fallback(uuid: nat): string {
    "form-" + HexDigits(uuid, 8)
  }

  function AllocatedSlug(taken: set<string>, desired: string, title: string, current: string, uuid: nat): string {
    var base := BaseSlug(desired, title, Fallback(uuid));
    if base == current then base else Candidate(base, FirstFree(base, taken, 0))
  }

  /** `uniqueSlug` against the slugs in the table. The database answers the first
      `served` lookups and fails the next one; the search needs at most |taken| + 1. */
  method UniqueSlug(taken: set<string>, desired: string, title: string, current: string, uuid: nat, served: nat)
    returns (slug: Option<string>, probes: nat)
    ensures probes <= |taken| + 1
    ensures slug.Some? ==> slug.value == AllocatedSlug(taken, desired, title, current, uuid)
    ensures var base := BaseSlug(desired, title, Fallback(uuid));
            && (slug.None? <==> base != current && TakenUpTo(base, taken, served))
            && probes == if slug.None? then served + 1 else if base == current then 0 else FirstFree(base, taken, 0) + 1
    ensures served > |taken| ==> slug.Some?
  {
    var base := Slugify(desired);
    if base == "" {
      base := Slugify(title);
    }
    if base == "" {
      base := Fallback(uuid);
    }
    if base == current {
      return Some(base), 0;
    }
    slug, probes := None, 0;
    var candidate := base;
    var i := 2;
    while true
      invariant i == probes + 2 && candidate == Candidate(base, probes)
      invariant TakenUpTo(base, taken, probes)
      invariant probes <= |taken| && probes <= served
      decreases |taken| - probes
    {
      probes := probes + 1;
      if served < probes {
        return;
      }
      assert !TakenUpTo(base, taken, served) || Candidate(base, probes - 1) in taken;
      if candidate !in taken {
        FreeIsFirst(base, taken, probes - 1);
        return Some(candidate), probes;
      }
      TakenNext(base, taken, probes - 1);
      candidate := base + "-" + Itoa(i);
      i := i + 1;
    }
  }

  /** There is one first free candidate: any free candidate whose predecessors are taken is it. */
  lemma FreeIsFirst(base: string, taken: set<string>, n: nat)
    requires Candidate(base, n) !in taken
    requires TakenUpTo(base, taken, n)
    ensures n == FirstFree(base, taken, 0)
  {
  }

  /** What every allocated slug is: a non-empty slug, and free unless it is the form's own. */
  lemma AllocatedSlugIsGood(taken: set<string>, desired: string, title: string, current: string, uuid: nat)
    ensures var s := AllocatedSlug(taken, desired, title, current, uuid);
            s != "" && Slugify(s) == s && (s in taken ==> s == current)
  {
    var base := BaseSlug(desired, title, Fallback(uuid));
    SlugifyIsWords(desired);
    SlugifyIsWords(title);
    FallbackIsSlug(uuid);
    var s := AllocatedSlug(taken, desired, title, current, uuid);
    if base != current {
      CandidateIsSlug(base, FirstFree(base, taken, 0));
    }
    SlugIsFixedPoint(s);
  }

  /** The slug a search is for: what the wish leaves, else what the title leaves, else a random one. */
  ghost predicate IsBase(desired: string, title: string, uuid: nat, base: string) {
    && (Slugify(desired) != "" ==> base == Slugify(desired))
    && (Slugify(desired) == "" && Slugify(title) != "" ==> base == Slugify(title))
    && (Slugify(desired) == "" && Slugify(title) == "" ==> |base| == 13 && base[..5] == "form-" && base[5..] == HexDigits(uuid, 8))
  }

  /** `slug` is the first of base, base-2, base-3, ... that is not taken. */
  ghost predicate FirstUntaken(base: string, taken: set<string>, slug: string) {
    && slug !in taken
    && (slug == base ||
        exists n: nat :: n >= 2 && slug == base + "-" + Itoa(n)
          && base in taken && forall m: nat :: 2 <= m < n ==> base + "-" + Itoa(m) in taken)
  }

  /** The allocated slug is the base itself when that is the form's own, else the first one free. */
  lemma AllocatedIsFirstUntaken(taken: set<string>, desired: string, title: string, current: string, uuid: nat)
    ensures exists base :: IsBase(desired, title, uuid, base) &&
              var slug := AllocatedSlug(taken, desired, title, current, uuid);
              if base == current then slug == base else FirstUntaken(base, taken, slug)
  {
    var base := BaseSlug(desired, title, Fallback(uuid));
    HexDigitsAreAlnum(uuid, 8);
    assert IsBase(desired, title, uuid, base);
    if base != current {
      FirstFreeIsUntaken(base, taken);
    }
  }

  lemma FirstFreeIsUntaken(base: string, taken: set<string>)
    ensures FirstUntaken(base, taken, Candidate(base, FirstFree(base, taken, 0)))
  {
    var k := FirstFree(base, taken, 0);
    assert TakenUpTo(base, taken, k);
    if k > 0 {
      assert Candidate(base, 0) in taken;
      forall m: nat | 2 <= m < k + 1 ensures base + "-" + Itoa(m) in taken {
        var j := m - 1;
        assert Candidate(base, j) in taken;
      }
    }
  }

  lemma {:induction false} HexDigitsAreAlnum(uuid: nat, k: nat)
    ensures |HexDigits(uuid, k)| == k
    ensures forall i :: 0 <= i < k ==> IsAlnum(HexDigits(uuid, k)[i])
  {
    if k > 0 {
      HexDigitsAreAlnum(uuid / 16, k - 1);
    }
  }

  lemma FallbackIsSlug(uuid: nat)
    ensures IsSlug(Fallback(uuid)) && Fallback(uuid) != ""
  {
    HexDigitsAreAlnum(uuid, 8);
    var ws := ["form", HexDigits(uuid, 8)];
    assert IsWord("form") && IsWord(ws[1]);
    assert ws[1..] == [ws[1]];
    assert "form" + "-" == "form-";
    assert Join(ws) == "form" + "-" + ws[1];
    assert forall w :: w in ws ==> IsWord(w);
  }
}
