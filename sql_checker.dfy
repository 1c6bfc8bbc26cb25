/**
 * The statement-type check `/\A\s*(t1|t2|...|tn)/mi`, built from the list of
 * target statements (lib/active_record/mod_sql_log_subscriber.rb:41).
 *
 * At the very start of the string the pattern skips any run of whitespace
 * (Ruby's `\s`), then requires one of the alternatives, compared with ASCII case
 * folding. There is no word boundary after the alternative. The `m` flag has no
 * effect since the pattern holds no `.`. Targets are literal keywords.
 *
 * `RegexAccepts` states what the pattern accepts; `MatchFrom` is the scan that
 * decides it, and `MatchFromIffRegex` proves the two agree.
 */
module SqlChecker {

  /** Ruby's `\s`: space, tab, line feed, vertical tab, form feed, carriage return. */
  predicate IsSpace(c: char) {
    c == ' ' || c == '\t' || c == '\n' || c == '\U{000B}' || c == '\U{000C}' || c == '\r'
  }

  /** ASCII case folding, as the `i` flag applies it to ASCII letters. */
  function Fold(c: char): char {
    if 'A' <= c <= 'Z' then (c as int + 32) as char else c
  }

  /** A string with its ASCII letters folded to lower case. */
  function FoldString(s: string): (r: string)
    ensures |r| == |s| && forall i :: 0 <= i < |s| ==> r[i] == Fold(s[i])
  {
    if s == [] then "" else [Fold(s[0])] + FoldString(s[1..])
  }

  /** The alternatives of the group `(t1|...|tn)`. Joining an empty list gives
      `()`, a group with one empty alternative. */
  function Alternatives(targets: seq<string>): (alts: seq<string>)
    ensures |alts| > 0
    ensures "" in alts <==> targets == [] || "" in targets
    ensures targets != [] ==> alts == targets
  {
    if targets == [] then [""] else targets
  }

  // ---------------------------------------------------------------------------
  // Reference definition: what the anchored pattern accepts

  ghost predicate AllSpace(s: string) {
    forall i :: 0 <= i < |s| ==> IsSpace(s[i])
  }

  /** `t` is a prefix of `s` up to ASCII case. */
  ghost predicate PrefixCI(t: string, s: string) {
    |t| <= |s| && forall i :: 0 <= i < |t| ==> Fold(t[i]) == Fold(s[i])
  }

  /** Some alternative matches at the start of `s`. */
  ghost predicate SomeAlternative(alts: seq<string>, s: string) {
    exists t :: t in alts && PrefixCI(t, s)
  }

  /** `\s*` consumes exactly the first `k` characters, then an alternative matches. */
  ghost predicate AcceptsAt(alts: seq<string>, s: string, k: int) {
    0 <= k <= |s| && AllSpace(s[..k]) && SomeAlternative(alts, s[k..])
  }

  /** The pattern `\A\s*(alts)` matches `s` (with backtracking over `\s*`). */
  ghost predicate RegexAccepts(alts: seq<string>, s: string) {
    exists k :: AcceptsAt(alts, s, k)
  }

  // ---------------------------------------------------------------------------
  // The scan

  function StartsWithFolded(t: string, s: string): bool {
    if t == [] then true
    else if s == [] then false
    else Fold(t[0]) == Fold(s[0]) && StartsWithFolded(t[1..], s[1..])
  }

  function AnyAlternative(alts: seq<string>, s: string): bool {
    if alts == [] then false
    else StartsWithFolded(alts[0], s) || AnyAlternative(alts[1..], s)
  }

  /** Tries the alternatives here, and otherwise skips one whitespace character. */
  function MatchFrom(alts: seq<string>, s: string): bool
    decreases |s|
  {
    AnyAlternative(alts, s) || (s != [] && IsSpace(s[0]) && MatchFrom(alts, s[1..]))
  }

  lemma {:induction false} StartsWithFoldedIffPrefix(t: string, s: string)
    ensures StartsWithFolded(t, s) <==> PrefixCI(t, s)
    decreases |t|
  {
    if t != [] && s != [] {
      StartsWithFoldedIffPrefix(t[1..], s[1..]);
      if PrefixCI(t[1..], s[1..]) && Fold(t[0]) == Fold(s[0]) {
        forall i | 0 <= i < |t| ensures Fold(t[i]) == Fold(s[i]) {
          if i > 0 { assert t[1..][i - 1] == t[i] && s[1..][i - 1] == s[i]; }
        }
      }
      if PrefixCI(t, s) {
        forall i | 0 <= i < |t| - 1 ensures Fold(t[1..][i]) == Fold(s[1..][i]) {
          assert t[1..][i] == t[i + 1] && s[1..][i] == s[i + 1];
        }
      }
    }
  }

  lemma {:induction false} AnyAlternativeIffSome(alts: seq<string>, s: string)
    ensures AnyAlternative(alts, s) <==> SomeAlternative(alts, s)
  {
    if alts != [] {
      AnyAlternativeIffSome(alts[1..], s);
      StartsWithFoldedIffPrefix(alts[0], s);
      if SomeAlternative(alts, s) {
        var t :| t in alts && PrefixCI(t, s);
        if t != alts[0] {
          assert t in alts[1..];
        }
      }
      if SomeAlternative(alts[1..], s) {
        var t :| t in alts[1..] && PrefixCI(t, s);
        assert t in alts;
      }
    }
  }

  /** One leading whitespace character can be consumed by `\s*`. */
  lemma AcceptsAfterSpace(alts: seq<string>, s: string, k: int)
    requires s != [] && IsSpace(s[0]) && AcceptsAt(alts, s[1..], k)
    ensures AcceptsAt(alts, s, k + 1)
  {
    var rest := s[1..];
    assert s[k + 1..] == rest[k..];
    var pre, restPre := s[..k + 1], rest[..k];
    forall i | 0 <= i < |pre| ensures IsSpace(pre[i]) {
      if i > 0 { assert pre[i] == restPre[i - 1]; }
    }
  }

  /** A match that consumed some whitespace is a match of the rest. */
  lemma AcceptsBeforeSpace(alts: seq<string>, s: string, k: int)
    requires AcceptsAt(alts, s, k) && k > 0
    ensures s != [] && IsSpace(s[0]) && AcceptsAt(alts, s[1..], k - 1)
  {
    assert IsSpace(s[..k][0]);
    var rest := s[1..];
    assert rest[k - 1..] == s[k..];
    var pre, restPre := s[..k], rest[..k - 1];
    forall i | 0 <= i < |restPre| ensures IsSpace(restPre[i]) {
      assert restPre[i] == pre[i + 1];
    }
  }

  /** The scan decides exactly the language of `\A\s*(alts)`. */
  lemma {:induction false} MatchFromIffRegex(alts: seq<string>, s: string)
    ensures MatchFrom(alts, s) <==> RegexAccepts(alts, s)
    decreases |s|
  {
    AnyAlternativeIffSome(alts, s);
    assert s[..0] == [] && s[0..] == s;
    assert AnyAlternative(alts, s) <==> AcceptsAt(alts, s, 0);
    if s != [] && IsSpace(s[0]) {
      MatchFromIffRegex(alts, s[1..]);
      if RegexAccepts(alts, s[1..]) {
        var k :| AcceptsAt(alts, s[1..], k);
        AcceptsAfterSpace(alts, s, k);
      }
    }
    if RegexAccepts(alts, s) {
      var k :| AcceptsAt(alts, s, k);
      if k > 0 {
        AcceptsBeforeSpace(alts, s, k);
        MatchFromIffRegex(alts, s[1..]);
      }
    }
  }

  /** The compiled checker, `@target_sql_checker`. */
  datatype Checker = Checker(alternatives: seq<string>) {

    /** `target_sql_checker.match?(sql)`. */
    function Match(sql: string): (b: bool)
      ensures b <==> RegexAccepts(alternatives, sql)
    {
      MatchFromIffRegex(alternatives, sql);
      MatchFrom(alternatives, sql)
    }
  }

  /** Builds the pattern from `target_statements`. */
  function Compile(targets: seq<string>): (c: Checker)
    ensures c.alternatives == Alternatives(targets)
  {
    Checker(Alternatives(targets))
  }

  // ---------------------------------------------------------------------------
  // Properties of the check

  /** With an empty target list the pattern is `\A\s*()`, which matches every
      string, the empty one included. */
  lemma EmptyTargetListMatchesAll(sql: string)
    ensures Compile([]).Match(sql)
  {
    assert PrefixCI("", sql);
  }

  /** The empty statement is rejected as soon as no alternative is empty: only
      `nil` is filtered explicitly, and `""` fails here. */
  lemma EmptyStatementRejected(targets: seq<string>)
    requires targets != [] && "" !in targets
    ensures !Compile(targets).Match("")
  {
  }

  /** Characters that fold to the same ASCII letter are interchangeable. */
  lemma FoldSpace(a: char, b: char)
    requires Fold(a) == Fold(b) && IsSpace(a)
    ensures IsSpace(b)
  {
  }

  lemma {:induction false} AcceptsAtFolded(alts: seq<string>, s: string, s': string, k: int)
    requires |s| == |s'| && FoldString(s) == FoldString(s')
    requires AcceptsAt(alts, s, k)
    ensures AcceptsAt(alts, s', k)
  {
    var pre, pre' := s[..k], s'[..k];
    forall i | 0 <= i < |pre'| ensures IsSpace(pre'[i]) {
      assert FoldString(s)[i] == FoldString(s')[i];
      FoldSpace(pre[i], pre'[i]);
    }
    var t :| t in alts && PrefixCI(t, s[k..]);
    var suf, suf' := s[k..], s'[k..];
    forall i | 0 <= i < |t| ensures Fold(t[i]) == Fold(suf'[i]) {
      assert suf[i] == s[k + i] && suf'[i] == s'[k + i];
      assert FoldString(s)[k + i] == FoldString(s')[k + i];
    }
    assert PrefixCI(t, suf');
  }

  /** The check is case-insensitive: statements that differ only in the case
      of ASCII letters are accepted or rejected together. */
  lemma CaseInsensitive(c: Checker, s: string, s': string)
    requires FoldString(s) == FoldString(s')
    ensures c.Match(s) == c.Match(s')
  {
    var alts := c.alternatives;
    if RegexAccepts(alts, s) {
      var k :| AcceptsAt(alts, s, k);
      AcceptsAtFolded(alts, s, s', k);
    }
    if RegexAccepts(alts, s') {
      var k :| AcceptsAt(alts, s', k);
      AcceptsAtFolded(alts, s', s, k);
    }
  }

  /** No alternative begins with whitespace (true of the default targets). */
  predicate NoLeadingSpace(alts: seq<string>) {
    forall t :: t in alts && t != [] ==> !IsSpace(t[0])
  }

  /** Leading whitespace is skipped: prefixing a statement with one whitespace
      character does not change whether it is accepted. */
  lemma LeadingSpaceSkipped(c: Checker, w: char, s: string)
    requires IsSpace(w) && NoLeadingSpace(c.alternatives)
    ensures c.Match([w] + s) == c.Match(s)
  {
    var alts := c.alternatives;
    var ws := [w] + s;
    assert ws[1..] == s;
    MatchFromIffRegex(alts, ws);
    MatchFromIffRegex(alts, s);
    AnyAlternativeIffSome(alts, ws);
    AnyAlternativeIffSome(alts, s);
    if SomeAlternative(alts, ws) {
      var t :| t in alts && PrefixCI(t, ws);
      if t != [] {
        assert Fold(t[0]) == Fold(w);
        FoldSpace(w, t[0]);
        assert false;
      }
      assert PrefixCI(t, s);
    }
  }

  /** A statement made of whitespace, then a word equal up to ASCII case to one
      of the alternatives, then anything at all, is accepted: there is no word
      boundary after the keyword. */
  lemma KeywordAccepted(alts: seq<string>, ws: string, kw: string, t: string, rest: string)
    requires t in alts && AllSpace(ws)
    requires FoldString(kw) == FoldString(t)
    ensures RegexAccepts(alts, ws + kw + rest)
  {
    var s := ws + kw + rest;
    assert s[..|ws|] == ws;
    var suf := s[|ws|..];
    assert suf == kw + rest;
    forall i | 0 <= i < |t| ensures Fold(t[i]) == Fold(suf[i]) {
      assert suf[i] == kw[i];
      assert FoldString(kw)[i] == FoldString(t)[i];
    }
    assert AcceptsAt(alts, s, |ws|);
  }

  /** A statement that does not begin with whitespace and that no alternative
      is a prefix of is rejected. */
  lemma NoAlternativeRejects(alts: seq<string>, s: string)
    requires s != [] && !IsSpace(s[0])
    requires forall t :: t in alts ==> !PrefixCI(t, s)
    ensures !RegexAccepts(alts, s)
  {
  }
}
