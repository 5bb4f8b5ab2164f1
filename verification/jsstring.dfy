/** The two JavaScript string operations the label patch relies on:
    `String.prototype.indexOf` and `String.prototype.replace` with a string
    (not a regular expression) as the pattern. */
module JsString {
  import opened Outcomes

  /** `pat` occurs in `s` starting at position `i`. */
  predicate OccursAt(s: string, pat: string, i: nat) {
    i + |pat| <= |s| && s[i..i + |pat|] == pat
  }

  /** `p` is the leftmost position where `pat` occurs in `s`. */
  predicate FirstOccurrence(s: string, pat: string, p: nat) {
    OccursAt(s, pat, p) && forall j: nat :: j < p ==> !OccursAt(s, pat, j)
  }

  /** The first occurrence of `pat` at or after `from`. */
  function IndexFrom(s: string, pat: string, from: nat): (r: Option<nat>)
    ensures r.Some? ==> from <= r.value && OccursAt(s, pat, r.value)
    ensures forall j :: from <= j && (r.None? || j < r.value) ==> !OccursAt(s, pat, j)
    decreases |s| - from
  {
    if from + |pat| > |s| then None
    else if s[from..from + |pat|] == pat then Some(from)
    else
      assert |pat| > 0;
      IndexFrom(s, pat, from + 1)
  }

  /** `s.indexOf(pat)`, with `None` for JavaScript's `-1`: the position of
      the first occurrence of `pat`. */
  function IndexOf(s: string, pat: string): (r: Option<nat>)
    ensures r.Some? ==> FirstOccurrence(s, pat, r.value)
    ensures r.None? <==> forall j: nat :: !OccursAt(s, pat, j)
  {
    IndexFrom(s, pat, 0)
  }

  /** The replacement text for one match (GetSubstitution of ECMAScript for
      a match without capture groups): `$$` stands for `$`, `$&` for the
      matched text, `` $` `` for the text before the match and `$'` for the
      text after it. Every other `$` is kept literally, which for a pattern
      without capture groups includes `$1`..`$99` and `$<`. */
  function Substitute(repl: string, matched: string, before: string, after: string): string
    decreases |repl|
  {
    if |repl| == 0 then ""
    else if repl[0] == '$' && |repl| >= 2 && repl[1] == '$' then
      "$" + Substitute(repl[2..], matched, before, after)
    else if repl[0] == '$' && |repl| >= 2 && repl[1] == '&' then
      matched + Substitute(repl[2..], matched, before, after)
    else if repl[0] == '$' && |repl| >= 2 && repl[1] == '`' then
      before + Substitute(repl[2..], matched, before, after)
    else if repl[0] == '$' && |repl| >= 2 && repl[1] == '\'' then
      after + Substitute(repl[2..], matched, before, after)
    else
      [repl[0]] + Substitute(repl[1..], matched, before, after)
  }

  /** A replacement without `$` is inserted verbatim. */
  lemma {:induction false} SubstituteVerbatim(repl: string, matched: string, before: string, after: string)
    requires '$' !in repl
    ensures Substitute(repl, matched, before, after) == repl
    decreases |repl|
  {
    if |repl| > 0 {
      assert repl == [repl[0]] + repl[1..];
      SubstituteVerbatim(repl[1..], matched, before, after);
    }
  }

  /** `s.replace(pat, repl)` for a string pattern: only the first occurrence
      is replaced, by the expanded replacement text. */
  function ReplaceFirst(s: string, pat: string, repl: string): string {
    match IndexOf(s, pat)
    case None => s
    case Some(p) =>
      s[..p] + Substitute(repl, pat, s[..p], s[p + |pat|..]) + s[p + |pat|..]
  }

  /** With a `$`-free replacement, `replace` cuts out the first occurrence of
      the pattern and puts the replacement, unchanged, in its place. */
  lemma ReplaceFirstVerbatim(s: string, pat: string, repl: string, p: nat)
    requires '$' !in repl
    requires FirstOccurrence(s, pat, p)
    ensures ReplaceFirst(s, pat, repl) == s[..p] + repl + s[p + |pat|..]
  {
    var i := IndexOf(s, pat);
    assert i == Some(p);
    SubstituteVerbatim(repl, pat, s[..p], s[p + |pat|..]);
  }
}
