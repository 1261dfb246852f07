/** The two built-in checks of the output verifier that assessments are made from. */
module Verifier {
  import opened Utf8
  import opened Texts

  /** A verdict with its score. */
  datatype Outcome = Outcome(passed: bool, score: real)

  predicate ContainsAt(text: Text, part: Text, i: nat) {
    i + |part| <= |text| && text[i..i + |part|] == part
  }

  predicate Contains(text: Text, part: Text) {
    exists i | 0 <= i <= |text| :: ContainsAt(text, part, i)
  }

  /** The criteria the text does not mention, lower case against lower case. */
  function Missing(lower: Text -> Text, text: Text, criteria: seq<Text>): (missing: seq<Text>)
    ensures |missing| <= |criteria|
  {
    if criteria == [] then []
    else
      Missing(lower, text, criteria[..|criteria| - 1])
      + if Contains(lower(text), lower(criteria[|criteria| - 1])) then [] else [criteria[|criteria| - 1]]
  }

  function Completeness(lower: Text -> Text, text: Text, criteria: seq<Text>): Outcome {
    var stripped := Strip(text);
    if stripped == [] then Outcome(false, 0.0)
    else if criteria == [] then Outcome(true, 1.0)
    else
      var missing := Missing(lower, stripped, criteria);
      if missing != [] then Outcome(false, 1.0 - (|missing| as real) / (|criteria| as real)) else Outcome(true, 1.0)
  }

  /** A denylist hit or an output beyond the size bound fails outright. */
  function Safety(denylist: seq<Text -> bool>, maxChars: nat, text: Text): Outcome {
    if |text| > maxChars || exists i | 0 <= i < |denylist| :: denylist[i](text) then Outcome(false, 0.0)
    else Outcome(true, 1.0)
  }

  /** The coverage score is one exactly when the check passes, and never leaves [0, 1]. */
  lemma CompletenessScores(lower: Text -> Text, text: Text, criteria: seq<Text>)
    ensures var o := Completeness(lower, text, criteria);
            0.0 <= o.score <= 1.0 && (o.passed <==> o.score == 1.0)
  {
    var stripped := Strip(text);
    if stripped != [] && criteria != [] {
      var missing := Missing(lower, stripped, criteria);
      Share(|missing|, |criteria|);
    }
  }

  lemma Share(k: nat, n: nat)
    requires k <= n && n > 0
    ensures 0.0 <= 1.0 - (k as real) / (n as real) <= 1.0
    ensures k > 0 ==> 1.0 - (k as real) / (n as real) < 1.0
  {
    var x, y := k as real, n as real;
    var q := x / y;
    Divides(x, y);
    Scaled(q, y);
    assert 0.0 <= q <= 1.0;
  }

  lemma Divides(x: real, y: real)
    requires y > 0.0
    ensures (x / y) * y == x
  {
  }

  lemma Scaled(q: real, n: real)
    requires n > 0.0
    ensures q > 1.0 ==> q * n > n
    ensures q <= 0.0 ==> q * n <= 0.0
    ensures q < 0.0 ==> q * n < 0.0
  {
  }

  /** A criterion makes the completeness check fail exactly when the text does not mention it. */
  lemma {:induction false} MissingIsNotMentioned(lower: Text -> Text, text: Text, criteria: seq<Text>, c: Text)
    ensures c in Missing(lower, text, criteria) <==> c in criteria && !Contains(lower(text), lower(c))
  {
    if criteria != [] {
      MissingIsNotMentioned(lower, text, criteria[..|criteria| - 1], c);
      assert criteria == criteria[..|criteria| - 1] + [criteria[|criteria| - 1]];
    }
  }

  /** A part is contained exactly when the text can be cut around it. */
  lemma ContainsMeans(text: Text, part: Text)
    ensures Contains(text, part) <==> exists a: Text, b: Text :: text == a + part + b
  {
    if Contains(text, part) {
      var i :| 0 <= i <= |text| && ContainsAt(text, part, i);
      assert text == text[..i] + part + text[i + |part|..];
    }
    if a: Text, b: Text :| text == a + part + b {
      assert ContainsAt(text, part, |a|);
    }
  }

  /** Output is safe exactly when it is within the size bound and no rule of the denylist hits it. */
  lemma SafetyMeans(denylist: seq<Text -> bool>, maxChars: nat, text: Text)
    ensures var o := Safety(denylist, maxChars, text);
            && (o.passed <==> |text| <= maxChars && forall hit | hit in denylist :: !hit(text))
            && o.score == if o.passed then 1.0 else 0.0
  {
  }

  /** How many of the criteria the text mentions. */
  function Mentions(lower: Text -> Text, text: Text, criteria: seq<Text>): (n: nat)
    ensures n <= |criteria|
  {
    if criteria == [] then 0
    else (if Contains(lower(text), lower(criteria[0])) then 1 else 0) + Mentions(lower, text, criteria[1..])
  }

  lemma {:induction false} MentionsJoin(lower: Text -> Text, text: Text, a: seq<Text>, b: seq<Text>)
    ensures Mentions(lower, text, a + b) == Mentions(lower, text, a) + Mentions(lower, text, b)
  {
    hide Contains;
    if a == [] {
      assert a + b == b;
    } else {
      assert (a + b)[1..] == a[1..] + b;
      MentionsJoin(lower, text, a[1..], b);
    }
  }

  lemma {:induction false} MissingCounts(lower: Text -> Text, text: Text, criteria: seq<Text>)
    ensures |Missing(lower, text, criteria)| + Mentions(lower, text, criteria) == |criteria|
  {
    hide Contains;
    if criteria != [] {
      var init, last := criteria[..|criteria| - 1], criteria[|criteria| - 1];
      assert criteria == init + [last];
      MissingCounts(lower, text, init);
      MentionsJoin(lower, text, init, [last]);
      assert Mentions(lower, text, [last][1..]) == 0;
    }
  }

  /** The completeness check passes exactly for nonblank text that mentions every criterion; its score
      is the share of the criteria that the text mentions. */
  lemma CompletenessMeans(lower: Text -> Text, text: Text, criteria: seq<Text>)
    ensures var o := Completeness(lower, text, criteria);
            && (o.passed <==> Strip(text) != [] && forall c | c in criteria :: Contains(lower(Strip(text)), lower(c)))
            && (Strip(text) == [] ==> o.score == 0.0)
            && (Strip(text) != [] ==> o.score * (|criteria| as real) == Mentions(lower, Strip(text), criteria) as real)
  {
    hide Completeness, Contains, Strip;
    PassesMeans(lower, text, criteria);
    if Strip(text) != [] {
      ScoreMeans(lower, text, criteria);
    }
  }

  lemma PassesMeans(lower: Text -> Text, text: Text, criteria: seq<Text>)
    ensures Completeness(lower, text, criteria).passed <==>
              Strip(text) != [] && forall c | c in criteria :: Contains(lower(Strip(text)), lower(c))
    ensures Strip(text) == [] ==> Completeness(lower, text, criteria).score == 0.0
  {
    hide Contains, Strip, Missing;
    var stripped := Strip(text);
    var missing := Missing(lower, stripped, criteria);
    forall c ensures c in missing <==> c in criteria && !Contains(lower(stripped), lower(c)) {
      MissingIsNotMentioned(lower, stripped, criteria, c);
    }
    if missing != [] {
      assert missing[0] in missing;
    }
  }

  lemma ScoreMeans(lower: Text -> Text, text: Text, criteria: seq<Text>)
    requires Strip(text) != []
    ensures Completeness(lower, text, criteria).score * (|criteria| as real) == Mentions(lower, Strip(text), criteria) as real
  {
    hide Contains, Strip, Missing, Mentions, Completeness;
    var k, n, m := |Missing(lower, Strip(text), criteria)|, |criteria|, Mentions(lower, Strip(text), criteria);
    MissingCounts(lower, Strip(text), criteria);
    ScoreIs(lower, text, criteria);
    if k > 0 {
      ShareOf(k, n);
      assert m == n - k;
    } else {
      assert m == n && 1.0 * (n as real) == n as real;
    }
  }

  lemma ScoreIs(lower: Text -> Text, text: Text, criteria: seq<Text>)
    requires Strip(text) != []
    ensures var k := |Missing(lower, Strip(text), criteria)|;
            Completeness(lower, text, criteria).score == if k > 0 then 1.0 - (k as real) / (|criteria| as real) else 1.0
  {
    hide Contains, Strip;
  }

  lemma ShareOf(k: nat, n: nat)
    requires k <= n && n > 0
    ensures (1.0 - (k as real) / (n as real)) * (n as real) == (n - k) as real
  {
    Divides(k as real, n as real);
  }
}
