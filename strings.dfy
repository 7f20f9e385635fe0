/** The few string operations of JavaScript the data layer uses:
    `includes`, `startsWith`, `split(' ')`, and `replace`/`match` with the
    three regular expressions the music cards use (a choice of literals, or a
    literal followed by a greedy run of one character class). */
module Strings {
  import opened Json

  /** `pat` occurs in `s` at index `i`. */
  predicate StartsAt(s: string, pat: string, i: int) {
    0 <= i && i + |pat| <= |s| && s[i..i + |pat|] == pat
  }

  /** `s.includes(pat)`. */
  predicate Contains(s: string, pat: string) {
    exists i | 0 <= i <= |s| :: StartsAt(s, pat, i)
  }

  /** `s.startsWith(pat)`. */
  predicate StartsWith(s: string, pat: string) {
    StartsAt(s, pat, 0)
  }

  lemma ContainsAt(s: string, pat: string, i: int)
    requires StartsAt(s, pat, i)
    ensures Contains(s, pat)
  {
  }

  /** A string without the first character of `pat` does not contain
      `pat`. */
  lemma MissingFirstChar(s: string, pat: string)
    requires pat != [] && pat[0] !in s
    ensures !Contains(s, pat)
  {
    forall i | 0 <= i <= |s|
      ensures !StartsAt(s, pat, i)
    {
      if i + |pat| <= |s| {
        assert s[i..i + |pat|][0] == s[i];
      }
    }
  }

  // ---------------------------------------------------------------------
  // split

  /** `s.split(sep)` for a one-character separator: consecutive separators
      give empty parts, and the empty string splits into one empty part. */
  function Split(s: string, sep: char): (parts: seq<string>)
    ensures |parts| >= 1
    ensures forall k | 0 <= k < |parts| :: sep !in parts[k]
  {
    if s == [] then [""]
    else
      var rest := Split(s[1..], sep);
      if s[0] == sep then [""] + rest
      else [[s[0]] + rest[0]] + rest[1..]
  }

  /** `parts.join(sep)`. */
  function Join(parts: seq<string>, sep: char): string {
    if |parts| == 0 then ""
    else if |parts| == 1 then parts[0]
    else parts[0] + [sep] + Join(parts[1..], sep)
  }

  /** Splitting loses nothing: joining the parts back gives the string. */
  lemma {:induction false} SplitJoin(s: string, sep: char)
    ensures Join(Split(s, sep), sep) == s
  {
    if s != [] {
      var rest := Split(s[1..], sep);
      SplitJoin(s[1..], sep);
      if s[0] == sep {
        assert ([""] + rest)[1..] == rest;
      } else {
        var parts := [[s[0]] + rest[0]] + rest[1..];
        if |rest| == 1 {
          assert parts == [[s[0]] + rest[0]];
        } else {
          assert parts[1..] == rest[1..];
          assert Join(rest, sep) == rest[0] + [sep] + Join(rest[1..], sep);
        }
      }
    }
  }

  // ---------------------------------------------------------------------
  // regular expressions

  datatype CharClass =
    | Digit         // \d
    | WordOrHyphen  // [\w-]

  predicate InClass(c: char, cls: CharClass) {
    match cls
    case Digit => '0' <= c <= '9'
    case WordOrHyphen =>
      'a' <= c <= 'z' || 'A' <= c <= 'Z' || '0' <= c <= '9' || c == '_' || c == '-'
  }

  /** The end of the longest run of `cls` characters that starts at `i`. */
  function RunEnd(s: string, i: nat, cls: CharClass): (j: nat)
    requires i <= |s|
    ensures i <= j <= |s|
    ensures forall k | i <= k < j :: InClass(s[k], cls)
    ensures j == |s| || !InClass(s[j], cls)
    decreases |s| - i
  {
    if i < |s| && InClass(s[i], cls) then RunEnd(s, i + 1, cls) else i
  }

  datatype Pattern =
    | AnyOf(alternatives: seq<string>)        // /(a|b|c)/, literal alternatives tried in order
    | LitThenRun(lit: string, cls: CharClass) // /lit[cls]+/, greedy

  /** The first alternative that occurs at `i`, as its length. */
  function FirstAlternative(s: string, i: nat, alts: seq<string>): (r: Option<nat>)
    ensures r.Some? ==> i + r.value <= |s| && s[i..i + r.value] in alts
    ensures r.None? <==> forall k | 0 <= k < |alts| :: !StartsAt(s, alts[k], i)
  {
    if alts == [] then None
    else if StartsAt(s, alts[0], i) then Some(|alts[0]|)
    else
      var r := FirstAlternative(s, i, alts[1..]);
      assert forall k | 1 <= k < |alts| :: alts[k] == alts[1..][k - 1];
      r
  }

  /** The length of the match of `p` that starts at `i`, if there is one. */
  function MatchAt(s: string, i: nat, p: Pattern): (r: Option<nat>)
    requires i <= |s|
    ensures r.Some? ==> i + r.value <= |s|
  {
    match p
    case AnyOf(alts) => FirstAlternative(s, i, alts)
    case LitThenRun(lit, cls) =>
      if StartsAt(s, lit, i) && RunEnd(s, i + |lit|, cls) > i + |lit|
      then Some(RunEnd(s, i + |lit|, cls) - i)
      else None
  }

  /** A match of a literal followed by a run is that literal, then a
      non-empty run of the class, and `s` contains both together. */
  lemma LitThenRunMatch(s: string, i: nat, lit: string, cls: CharClass, n: nat)
    requires i <= |s| && MatchAt(s, i, LitThenRun(lit, cls)) == Some(n)
    ensures |lit| < n && i + n <= |s|
    ensures var run := s[i + |lit|..i + n];
      && forall k | 0 <= k < |run| :: InClass(run[k], cls)
    ensures Contains(s, lit + s[i + |lit|..i + n])
  {
    var run := s[i + |lit|..i + n];
    assert s[i..i + n] == s[i..i + |lit|] + run;
    assert StartsAt(s, lit + run, i);
  }

  /** The leftmost match of `p` at or after `from`: its start and length. */
  function Search(s: string, from: nat, p: Pattern): (r: Option<(nat, nat)>)
    requires from <= |s|
    ensures r.Some? ==> from <= r.value.0 <= |s| && MatchAt(s, r.value.0, p) == Some(r.value.1)
    ensures r.Some? ==> forall j | from <= j < r.value.0 :: MatchAt(s, j, p).None?
    ensures r.None? ==> forall j | from <= j <= |s| :: MatchAt(s, j, p).None?
    decreases |s| - from
  {
    match MatchAt(s, from, p)
    case Some(n) => Some((from, n))
    case None =>
      if from == |s| then None
      else
        var r := Search(s, from + 1, p);
        assert r.Some? ==> forall j | from <= j < r.value.0 :: MatchAt(s, j, p).None? by {
          if r.Some? {
            forall j | from <= j < r.value.0
              ensures MatchAt(s, j, p).None?
            {
              if j > from {
                assert from + 1 <= j < r.value.0;
              }
            }
          }
        }
        r
  }

  /** `s.replace(p, repl)` without the global flag: only the leftmost match
      is replaced, and a string with no match comes back unchanged. */
  function ReplaceFirst(s: string, p: Pattern, repl: string): (r: string)
    ensures (forall j | 0 <= j <= |s| :: MatchAt(s, j, p).None?) ==> r == s
  {
    match Search(s, 0, p)
    case None => s
    case Some((i, n)) => s[..i] + repl + s[i + n..]
  }

  /** The leftmost match is the one `Search` finds. */
  lemma SearchFindsLeftmost(s: string, p: Pattern, i: nat, n: nat)
    requires i <= |s| && MatchAt(s, i, p) == Some(n)
    requires forall j | 0 <= j < i :: MatchAt(s, j, p).None?
    ensures Search(s, 0, p) == Some((i, n))
  {
  }

  /** `replace` puts `repl` exactly in place of the leftmost match. */
  lemma ReplaceFirstAt(s: string, p: Pattern, repl: string, i: nat, n: nat)
    requires i <= |s| && MatchAt(s, i, p) == Some(n)
    requires forall j | 0 <= j < i :: MatchAt(s, j, p).None?
    ensures ReplaceFirst(s, p, repl) == s[..i] + repl + s[i + n..]
  {
    SearchFindsLeftmost(s, p, i, n);
  }
}
