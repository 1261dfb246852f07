/** Scope globs: the translation to a regular expression, the part of the regular-expression
    language it uses, and its meaning next to the declarative meaning of a glob. */
module ScopeGlob {
  import opened Wrappers

  // ---------------------------------------------------------------- the translation

  predicate Special(c: char) {
    || c == '.' || c == '^' || c == '$' || c == '+' || c == '?' || c == '[' || c == ']'
    || c == '{' || c == '}' || c == '(' || c == ')' || c == '\\' || c == '|'
  }

  function EscapeChar(c: char): string {
    if Special(c) then ['\\', c] else [c]
  }

  function Piece(c: char): string {
    if c == '*' then ".*" else EscapeChar(c)
  }

  function Body(pattern: string): string {
    if pattern == [] then [] else Body(pattern[..|pattern| - 1]) + Piece(pattern[|pattern| - 1])
  }

  function GlobToRegex(pattern: string): string {
    "^" + Body(pattern) + "$"
  }

  /** The source builds the expression in a list, one character at a time. */
  method TranslateGlob(pattern: string) returns (regex: string)
    ensures regex == GlobToRegex(pattern)
  {
    var out := "^";
    for i := 0 to |pattern|
      invariant out == "^" + Body(pattern[..i])
    {
      assert pattern[..i + 1][..i] == pattern[..i];
      out := out + if pattern[i] == '*' then ".*" else EscapeChar(pattern[i]);
    }
    assert pattern[..|pattern|] == pattern;
    regex := out + "$";
  }

  // ---------------------------------------------------------------- the regular expressions used

  datatype Token = Literal(c: char) | AnyRun

  /** Reading the body of an expression: `.*`, an escaped character, or a plain one. */
  function ParseBody(s: string): Option<seq<Token>> {
    if s == [] then Some([])
    else if s[0] == '.' then
      if |s| >= 2 && s[1] == '*' then Then(AnyRun, ParseBody(s[2..])) else None
    else if s[0] == '\\' then
      if |s| >= 2 then Then(Literal(s[1]), ParseBody(s[2..])) else None
    else if Special(s[0]) || s[0] == '*' then None
    else Then(Literal(s[0]), ParseBody(s[1..]))
  }

  function Then(t: Token, rest: Option<seq<Token>>): Option<seq<Token>> {
    if rest.Some? then Some([t] + rest.value) else None
  }

  /** An anchored expression is its body between `^` and `$`. */
  function ParseRegex(s: string): Option<seq<Token>> {
    if |s| >= 2 && s[0] == '^' && s[|s| - 1] == '$' then ParseBody(s[1..|s| - 1]) else None
  }

  /** The tokens span all of the text; a dot stands for anything but a newline. */
  predicate Spans(tokens: seq<Token>, s: string)
    decreases |tokens|, |s|
  {
    if tokens == [] then s == []
    else if tokens[0].Literal? then s != [] && s[0] == tokens[0].c && Spans(tokens[1..], s[1..])
    else Spans(tokens[1..], s) || (s != [] && s[0] != '\n' && Spans(tokens, s[1..]))
  }

  /** Matching from the start; `$` also matches just before a final newline. */
  predicate Matches(tokens: seq<Token>, s: string) {
    Spans(tokens, s) || (s != [] && s[|s| - 1] == '\n' && Spans(tokens, s[..|s| - 1]))
  }

  // ---------------------------------------------------------------- what a glob means

  predicate NoNewline(s: string) {
    forall i | 0 <= i < |s| :: s[i] != '\n'
  }

  function Stars(pattern: string): nat {
    if pattern == [] then 0 else (if pattern[0] == '*' then 1 else 0) + Stars(pattern[1..])
  }

  /** The pattern with its wildcards replaced, left to right, by the given texts. */
  function Fill(pattern: string, runs: seq<string>): string
    requires |runs| == Stars(pattern)
  {
    if pattern == [] then []
    else if pattern[0] == '*' then runs[0] + Fill(pattern[1..], runs[1..])
    else [pattern[0]] + Fill(pattern[1..], runs)
  }

  /** The declarative meaning: the target is the pattern with every wildcard replaced by some text. */
  ghost predicate Glob(pattern: string, target: string) {
    exists runs: seq<string> :: |runs| == Stars(pattern) && Fill(pattern, runs) == target
  }

  // ---------------------------------------------------------------- the translation keeps the meaning

  function TokensOf(pattern: string): seq<Token> {
    if pattern == [] then []
    else [if pattern[0] == '*' then AnyRun else Literal(pattern[0])] + TokensOf(pattern[1..])
  }

  lemma {:induction false} BodyFromFront(pattern: string)
    requires pattern != []
    ensures Body(pattern) == Piece(pattern[0]) + Body(pattern[1..])
  {
    if |pattern| > 1 {
      BodyFromFront(pattern[..|pattern| - 1]);
      assert pattern[..|pattern| - 1][1..] == pattern[1..][..|pattern| - 2];
    } else {
      assert pattern[..0] == [] && pattern[1..] == [];
    }
  }

  /** The expression reads back as one token for each character of the glob: the escapes are right. */
  lemma {:induction false} BodyReadsBack(pattern: string)
    ensures ParseBody(Body(pattern)) == Some(TokensOf(pattern))
  {
    if pattern != [] {
      BodyFromFront(pattern);
      BodyReadsBack(pattern[1..]);
      var rest := Body(pattern[1..]);
      if pattern[0] == '*' {
        assert (".*" + rest)[2..] == rest;
      } else if Special(pattern[0]) {
        assert (['\\', pattern[0]] + rest)[2..] == rest;
      } else {
        assert ([pattern[0]] + rest)[1..] == rest;
      }
    }
  }

  lemma RegexReadsBack(pattern: string)
    ensures ParseRegex(GlobToRegex(pattern)) == Some(TokensOf(pattern))
  {
    BodyReadsBack(pattern);
    var s := GlobToRegex(pattern);
    assert s[1..|s| - 1] == Body(pattern);
  }

  lemma {:induction false} SpansFill(pattern: string, s: string) returns (runs: seq<string>)
    requires Spans(TokensOf(pattern), s)
    ensures |runs| == Stars(pattern) && Fill(pattern, runs) == s
    ensures forall i | 0 <= i < |runs| :: NoNewline(runs[i])
    decreases |pattern|, |s|
  {
    if pattern == [] {
      runs := [];
    } else {
      assert TokensOf(pattern)[1..] == TokensOf(pattern[1..]);
      if pattern[0] != '*' {
        runs := SpansFill(pattern[1..], s[1..]);
        assert s == [s[0]] + s[1..];
      } else if Spans(TokensOf(pattern[1..]), s) {
        var rest := SpansFill(pattern[1..], s);
        runs := [""] + rest;
        assert runs[1..] == rest;
      } else {
        var more := SpansFill(pattern, s[1..]);
        runs := [[s[0]] + more[0]] + more[1..];
        assert runs[1..] == more[1..];
        assert [s[0]] + more[0] + Fill(pattern[1..], more[1..]) == [s[0]] + (more[0] + Fill(pattern[1..], more[1..]));
        assert s == [s[0]] + s[1..];
      }
    }
  }

  /** A wildcard takes any text without a newline. */
  lemma {:induction false} RunSpans(tokens: seq<Token>, run: string, s: string)
    requires NoNewline(run) && Spans(tokens, s)
    ensures Spans([AnyRun] + tokens, run + s)
    decreases |run|
  {
    var all := [AnyRun] + tokens;
    assert all[1..] == tokens;
    if run == "" {
      assert run + s == s;
    } else {
      RunSpans(tokens, run[1..], s);
      assert (run + s)[1..] == run[1..] + s;
    }
  }

  lemma {:induction false} FillSpans(pattern: string, runs: seq<string>)
    requires |runs| == Stars(pattern) && forall i | 0 <= i < |runs| :: NoNewline(runs[i])
    ensures Spans(TokensOf(pattern), Fill(pattern, runs))
  {
    if pattern != [] {
      var tokens := TokensOf(pattern[1..]);
      if pattern[0] == '*' {
        FillSpans(pattern[1..], runs[1..]);
        RunSpans(tokens, runs[0], Fill(pattern[1..], runs[1..]));
      } else {
        FillSpans(pattern[1..], runs);
        LiteralSpans(pattern[0], tokens, Fill(pattern[1..], runs));
      }
    }
  }

  lemma LiteralSpans(c: char, tokens: seq<Token>, s: string)
    requires Spans(tokens, s)
    ensures Spans([Literal(c)] + tokens, [c] + s)
  {
    assert ([Literal(c)] + tokens)[1..] == tokens && ([c] + s)[1..] == s;
  }

  lemma {:induction false} FillHoldsItsRuns(pattern: string, runs: seq<string>)
    requires |runs| == Stars(pattern) && NoNewline(Fill(pattern, runs))
    ensures forall i | 0 <= i < |runs| :: NoNewline(runs[i])
  {
    if pattern != [] {
      var rest := Fill(pattern, runs);
      if pattern[0] == '*' {
        var tail := Fill(pattern[1..], runs[1..]);
        assert NoNewline(runs[0]) by {
          assert forall i | 0 <= i < |runs[0]| :: rest[i] == runs[0][i];
        }
        assert NoNewline(tail) by {
          assert forall i | 0 <= i < |tail| :: rest[|runs[0]| + i] == tail[i];
        }
        FillHoldsItsRuns(pattern[1..], runs[1..]);
        forall i | 0 <= i < |runs| ensures NoNewline(runs[i]) {
          if i > 0 {
            assert runs[i] == runs[1..][i - 1];
          }
        }
      } else {
        var tail := Fill(pattern[1..], runs);
        assert forall i | 0 <= i < |tail| :: rest[1 + i] == tail[i];
        FillHoldsItsRuns(pattern[1..], runs);
      }
    }
  }

  /** What the compiled expression accepts, for every pattern and target: the pattern filled with
      texts free of newlines, with or without one newline after it. */
  lemma RegexMeansGlob(pattern: string, target: string)
    ensures Matches(TokensOf(pattern), target) <==>
            exists runs: seq<string> ::
              && |runs| == Stars(pattern) && (forall i | 0 <= i < |runs| :: NoNewline(runs[i]))
              && (Fill(pattern, runs) == target || Fill(pattern, runs) + "\n" == target)
  {
    if Matches(TokensOf(pattern), target) {
      if Spans(TokensOf(pattern), target) {
        var runs := SpansFill(pattern, target);
      } else {
        var runs := SpansFill(pattern, target[..|target| - 1]);
        assert target == target[..|target| - 1] + "\n";
      }
    }
    if runs: seq<string> :|
      && |runs| == Stars(pattern) && (forall i | 0 <= i < |runs| :: NoNewline(runs[i]))
      && (Fill(pattern, runs) == target || Fill(pattern, runs) + "\n" == target)
    {
      FillSpans(pattern, runs);
      if Fill(pattern, runs) != target {
        assert target[..|target| - 1] == Fill(pattern, runs);
      }
    }
  }

  /** On targets without a newline the translation has exactly the meaning of a glob. */
  lemma GlobMeaning(pattern: string, target: string)
    requires NoNewline(target)
    ensures Matches(TokensOf(pattern), target) <==> Glob(pattern, target)
  {
    RegexMeansGlob(pattern, target);
    if Glob(pattern, target) {
      var runs: seq<string> :| |runs| == Stars(pattern) && Fill(pattern, runs) == target;
      FillHoldsItsRuns(pattern, runs);
    }
    if Matches(TokensOf(pattern), target) {
      var runs: seq<string> :|
        && |runs| == Stars(pattern) && (forall i | 0 <= i < |runs| :: NoNewline(runs[i]))
        && (Fill(pattern, runs) == target || Fill(pattern, runs) + "\n" == target);
      if Fill(pattern, runs) + "\n" == target {
        EndsInNewline(Fill(pattern, runs));
      }
    }
  }

  lemma EndsInNewline(s: string)
    ensures !NoNewline(s + "\n")
  {
    assert (s + "\n")[|s|] == '\n';
  }

  // ---------------------------------------------------------------- targets with newlines

  function Newlines(s: string): nat {
    if s == [] then 0 else (if s[0] == '\n' then 1 else 0) + Newlines(s[1..])
  }

  function NewlinesOf(runs: seq<string>): nat {
    if runs == [] then 0 else Newlines(runs[0]) + NewlinesOf(runs[1..])
  }

  lemma {:induction false} NewlinesJoin(a: string, b: string)
    ensures Newlines(a + b) == Newlines(a) + Newlines(b)
  {
    if a == [] {
      assert a + b == b;
    } else {
      assert (a + b)[1..] == a[1..] + b;
      NewlinesJoin(a[1..], b);
    }
  }

  lemma {:induction false} NoNewlines(runs: seq<string>)
    requires forall i | 0 <= i < |runs| :: NoNewline(runs[i])
    ensures NewlinesOf(runs) == 0
  {
    if runs != [] {
      NoneCounted(runs[0]);
      assert forall i | 0 <= i < |runs[1..]| :: runs[1..][i] == runs[i + 1];
      NoNewlines(runs[1..]);
    }
  }

  lemma {:induction false} NoneCounted(s: string)
    requires NoNewline(s)
    ensures Newlines(s) == 0
  {
    if s != [] {
      assert forall i | 0 <= i < |s[1..]| :: s[1..][i] == s[i + 1];
      NoneCounted(s[1..]);
    }
  }

  /** The newlines of a filled pattern: its own, and those of the texts put in. */
  lemma {:induction false} FillNewlines(pattern: string, runs: seq<string>)
    requires |runs| == Stars(pattern)
    ensures Newlines(Fill(pattern, runs)) == Newlines(pattern) + NewlinesOf(runs)
  {
    if pattern != [] {
      if pattern[0] == '*' {
        FillNewlines(pattern[1..], runs[1..]);
        NewlinesJoin(runs[0], Fill(pattern[1..], runs[1..]));
      } else {
        FillNewlines(pattern[1..], runs);
        assert Fill(pattern, runs)[1..] == Fill(pattern[1..], runs);
      }
    }
  }

  /** What the expression accepts has at most one newline more than the pattern. */
  lemma MatchesHasFewNewlines(pattern: string, target: string)
    requires Matches(TokensOf(pattern), target)
    ensures Newlines(target) <= Newlines(pattern) + 1
  {
    RegexMeansGlob(pattern, target);
    var runs: seq<string> :|
      && |runs| == Stars(pattern) && (forall i | 0 <= i < |runs| :: NoNewline(runs[i]))
      && (Fill(pattern, runs) == target || Fill(pattern, runs) + "\n" == target);
    FillNewlines(pattern, runs);
    NoNewlines(runs);
    NewlinesJoin(Fill(pattern, runs), "\n");
    assert Newlines("\n") == 1;
  }

  /** A wildcard filled with two newlines: the glob takes it and the expression does not... */
  lemma WildcardsStopAtNewlines(pattern: string) returns (target: string)
    requires Stars(pattern) > 0
    ensures Glob(pattern, target) && !Matches(TokensOf(pattern), target)
  {
    var empty := seq(Stars(pattern) - 1, _ => "");
    var runs := ["\n\n"] + empty;
    target := Fill(pattern, runs);
    assert runs[1..] == empty;
    assert "\n\n"[1..] == "\n" && Newlines("\n") == 1;
    NoNewlines(empty);
    FillNewlines(pattern, runs);
    if Matches(TokensOf(pattern), target) {
      MatchesHasFewNewlines(pattern, target);
    }
  }

  /** ... and a pattern without one accepts a newline at the end that it does not mention. */
  lemma FinalNewlineSlipsThrough(pattern: string, target: string)
    requires Stars(pattern) == 0 && Glob(pattern, target)
    ensures Matches(TokensOf(pattern), target + "\n") && !Glob(pattern, target + "\n")
  {
    assert (target + "\n")[..|target|] == target;
    var none: seq<string> := [];
    GlobHasOneFill(pattern, target);
    forall runs: seq<string> | |runs| == Stars(pattern) ensures Fill(pattern, runs) == target {
      assert runs == none;
    }
    SpansOne(pattern, target);
  }

  /** A pattern without wildcards means itself. */
  lemma LiteralIsGlob(pattern: string)
    requires Stars(pattern) == 0
    ensures Glob(pattern, Fill(pattern, []))
  {
    var none: seq<string> := [];
    assert Fill(pattern, none) == Fill(pattern, []);
  }

  lemma StarIsEverything(target: string)
    ensures Glob("*", target)
  {
    assert "*"[1..] == "" && Stars("*") == 1;
    var runs := [target];
    assert runs[1..] == [];
    assert Fill("*", runs) == target + [];
  }

  /** The translation keeps the meaning of no glob on all targets: only without newlines. */
  lemma NoGlobIsExact(pattern: string)
    ensures exists target :: !(Matches(TokensOf(pattern), target) <==> Glob(pattern, target))
  {
    if Stars(pattern) > 0 {
      var target := WildcardsStopAtNewlines(pattern);
    } else {
      var target := Fill(pattern, []);
      LiteralIsGlob(pattern);
      FinalNewlineSlipsThrough(pattern, target);
    }
  }

  lemma GlobHasOneFill(pattern: string, target: string)
    requires Stars(pattern) == 0 && Glob(pattern, target)
    ensures Fill(pattern, []) == target
  {
    var runs: seq<string> :| |runs| == Stars(pattern) && Fill(pattern, runs) == target;
    assert runs == [];
  }

  lemma SpansOne(pattern: string, target: string)
    requires Stars(pattern) == 0 && Fill(pattern, []) == target
    ensures Spans(TokensOf(pattern), target)
  {
    FillSpans(pattern, []);
  }
}
