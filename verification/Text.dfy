/** The string primitives the services lean on: trimming, ASCII lower-casing, and
    decimal printing and parsing as `strconv.Itoa` and `strconv.Atoi` do them. */
module Text {

  datatype Option<+T> = None | Some(value: T)

  // ----- trimming -----

  predicate IsSpace(c: char) {
    c == ' ' || '\t' <= c <= '\r'
  }

  predicate IsDash(c: char) {
    c == '-'
  }

  function TrimLeft(s: string, cut: char -> bool): string {
    if s != "" && cut(s[0]) then TrimLeft(s[1..], cut) else s
  }

  function TrimRight(s: string, cut: char -> bool): string {
    if s != "" && cut(s[|s| - 1]) then TrimRight(s[..|s| - 1], cut) else s
  }

  function Trim(s: string, cut: char -> bool): string {
    TrimRight(TrimLeft(s, cut), cut)
  }

  /** `strings.TrimSpace` on ASCII text. */
  function TrimSpace(s: string): string {
    Trim(s, IsSpace)
  }

  /** Neither end of `s` is in the cut set. */
  predicate Bare(s: string, cut: char -> bool) {
    s != "" ==> !cut(s[0]) && !cut(s[|s| - 1])
  }

  lemma {:induction false} TrimLeftSplits(s: string, cut: char -> bool) returns (k: nat)
    ensures k <= |s| && TrimLeft(s, cut) == s[k..]
    ensures (forall i :: 0 <= i < k ==> cut(s[i])) && (k < |s| ==> !cut(s[k]))
  {
    if s != "" && cut(s[0]) {
      var j := TrimLeftSplits(s[1..], cut);
      k := j + 1;
      assert forall i :: 0 < i < k ==> s[i] == s[1..][i - 1];
    } else {
      k := 0;
    }
  }

  lemma {:induction false} TrimRightSplits(s: string, cut: char -> bool) returns (k: nat)
    ensures k <= |s| && TrimRight(s, cut) == s[..k]
    ensures (forall i :: k <= i < |s| ==> cut(s[i])) && (k > 0 ==> !cut(s[k - 1]))
  {
    if s != "" && cut(s[|s| - 1]) {
      k := TrimRightSplits(s[..|s| - 1], cut);
      assert forall i :: k <= i < |s| - 1 ==> s[i] == s[..|s| - 1][i];
    } else {
      k := |s|;
    }
  }

  /** Trimming removes exactly the cut characters at the two ends: what is left is
      bare, and everything before and after it is cut characters. */
  lemma TrimSplits(s: string, cut: char -> bool) returns (i: nat, j: nat)
    ensures i <= j <= |s| && Trim(s, cut) == s[i..j]
    ensures Bare(Trim(s, cut), cut)
    ensures forall k :: 0 <= k < i || j <= k < |s| ==> cut(s[k])
  {
    i := TrimLeftSplits(s, cut);
    var t := s[i..];
    var n := TrimRightSplits(t, cut);
    j := i + n;
    assert forall k :: j <= k < |s| ==> s[k] == t[k - i];
  }

  lemma TrimBare(s: string, cut: char -> bool)
    requires Bare(s, cut)
    ensures Trim(s, cut) == s
  {
  }

  lemma TrimIdempotent(s: string, cut: char -> bool)
    ensures Trim(Trim(s, cut), cut) == Trim(s, cut)
  {
    var _, _ := TrimSplits(s, cut);
    TrimBare(Trim(s, cut), cut);
  }

  // ----- titles from prompts -----

  const TITLE_LIMIT := 80

  /** The place of the first line break or full stop, or the length. */
  function FirstBreak(s: string): (i: nat)
    ensures i <= |s|
    ensures i < |s| ==> s[i] == '\n' || s[i] == '.'
    ensures forall k :: 0 <= k < i ==> s[k] != '\n' && s[k] != '.'
  {
    if s == "" || s[0] == '\n' || s[0] == '.' then 0 else 1 + FirstBreak(s[1..])
  }

  /** The first line or sentence of the prompt, cut to size; `otherwise` when nothing is left. */
  function Headline(prompt: string, otherwise: string): (title: string)
    ensures otherwise != "" ==> title != ""
    ensures |title| <= TITLE_LIMIT + 1 || title == otherwise
  {
    var t := TrimSpace(prompt);
    var i := FirstBreak(t);
    var cut := TrimSpace(if 0 < i < |t| then t[..i] else t);
    if cut == "" then otherwise
    else if |cut| > TITLE_LIMIT then cut[..TITLE_LIMIT] + "\U{2026}"
    else cut
  }

  predicate IsBreak(c: char) {
    c == '\n' || c == '.'
  }

  /** `line` is what `t` has before its first break; a text that starts with a break stays whole. */
  ghost predicate FirstLine(t: string, line: string) {
    && line <= t
    && (|line| < |t| ==> line != "" && IsBreak(t[|line|]) && forall k :: 0 <= k < |line| ==> !IsBreak(line[k]))
    && (|line| == |t| ==> (t != "" && IsBreak(t[0])) || forall k :: 0 <= k < |t| ==> !IsBreak(t[k]))
  }

  /** The title is the first line, trimmed, and if longer than 80 its first 80 characters with an ellipsis. */
  lemma HeadlineIsFirstLine(prompt: string, otherwise: string)
    ensures exists line :: FirstLine(TrimSpace(prompt), line) &&
              var kept, title := TrimSpace(line), Headline(prompt, otherwise);
              if kept == "" then title == otherwise
              else if |kept| <= 80 then title == kept
              else title == kept[..80] + "\U{2026}"
  {
    var t := TrimSpace(prompt);
    var i := FirstBreak(t);
    var line := if 0 < i < |t| then t[..i] else t;
    assert FirstLine(t, line);
  }

  // ----- lower-casing -----

  function Lower(c: char): char {
    if 'A' <= c <= 'Z' then c - 'A' + 'a' else c
  }

  function ToLower(s: string): string {
    seq(|s|, i requires 0 <= i < |s| => Lower(s[i]))
  }

  // ----- decimal numbers -----

  const MAX_INT64: int := 0x7fff_ffff_ffff_ffff

  predicate IsDigit(c: char) {
    '0' <= c <= '9'
  }

  function Itoa(n: nat): (s: string)
    ensures s != "" && forall i :: 0 <= i < |s| ==> IsDigit(s[i])
  {
    var d := [(n % 10) as char + '0'];
    if n < 10 then d else Itoa(n / 10) + d
  }

  function DigitsValue(s: string): nat
    requires forall i :: 0 <= i < |s| ==> IsDigit(s[i])
  {
    if s == "" then 0
    else
      assert IsDigit(s[|s| - 1]);
      10 * DigitsValue(s[..|s| - 1]) + (s[|s| - 1] as int - '0' as int)
  }

  /** `strconv.Atoi`: an optional sign, then digits only, within 64 bits. */
  function Atoi(s: string): Option<int> {
    var signed := s != "" && (s[0] == '-' || s[0] == '+');
    var digits := if signed then s[1..] else s;
    if digits == "" || exists i :: 0 <= i < |digits| && !IsDigit(digits[i]) then None
    else
      var v := DigitsValue(digits);
      if signed && s[0] == '-' then
        if v <= MAX_INT64 + 1 then Some(-(v as int)) else None
      else
        if v <= MAX_INT64 then Some(v) else None
  }

  lemma {:induction false} DigitsValueOfItoa(n: nat)
    ensures DigitsValue(Itoa(n)) == n
  {
    var s := Itoa(n);
    if n >= 10 {
      DigitsValueOfItoa(n / 10);
      assert s[..|s| - 1] == Itoa(n / 10);
    } else {
      assert s[..0] == "";
    }
  }

  lemma ItoaInjective(m: nat, n: nat)
    requires Itoa(m) == Itoa(n)
    ensures m == n
  {
    DigitsValueOfItoa(m);
    DigitsValueOfItoa(n);
  }

  /** Parsing undoes printing for every natural that fits in 64 bits, and only for those. */
  lemma AtoiOfItoa(n: nat)
    ensures Atoi(Itoa(n)) == if n <= MAX_INT64 then Some(n) else None
  {
    DigitsValueOfItoa(n);
  }
}
