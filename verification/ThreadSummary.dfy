/** What a summary says: the lines of its messages in order, each with its role and its clipped
    text, and if they are too many characters, the newest of them. */
module ThreadSummary {
  import opened Wrappers
  import opened Utf8
  import opened Texts
  import opened ButlerThreads
  import opened ThreadContext

  // ---------------------------------------------------------------- one line

  predicate AllWhite(t: Text) {
    forall i | 0 <= i < |t| :: White(t[i])
  }

  lemma {:induction false} StripLeftMeans(t: Text) returns (before: Text)
    ensures t == before + StripLeft(t) && AllWhite(before)
  {
    if t != [] && White(t[0]) {
      var rest := StripLeftMeans(t[1..]);
      before := [t[0]] + rest;
    } else {
      before := [];
    }
  }

  lemma {:induction false} StripRightMeans(t: Text) returns (after: Text)
    ensures t == StripRight(t) + after && AllWhite(after)
  {
    if t != [] && White(t[|t| - 1]) {
      var rest := StripRightMeans(t[..|t| - 1]);
      after := rest + [t[|t| - 1]];
    } else {
      after := [];
    }
  }

  /** `strip` takes white space off both ends and nothing else. */
  lemma StripMeans(t: Text) returns (before: Text, after: Text)
    ensures t == before + Strip(t) + after && AllWhite(before) && AllWhite(after)
    ensures Strip(t) != [] ==> !White(Strip(t)[0]) && !White(Strip(t)[|Strip(t)| - 1])
  {
    before := StripLeftMeans(t);
    after := StripRightMeans(StripLeft(t));
  }

  /** A clipped text is the stripped one if that fits; otherwise its beginning, up to white space
      before the last place, and the mark of the cut there. */
  lemma ClipMeans(t: Text, limit: nat) returns (kept: nat)
    requires limit >= 1
    ensures |Clip(t, limit)| <= limit
    ensures |Strip(t)| <= limit ==> Clip(t, limit) == Strip(t)
    ensures |Strip(t)| > limit ==>
              && kept < limit && Clip(t, limit) == Strip(t)[..kept] + [0x2026]
              && (kept > 0 ==> !White(Strip(t)[kept - 1])) && AllWhite(Strip(t)[kept..limit - 1])
  {
    kept := 0;
    if |Strip(t)| > limit {
      var head := Strip(t)[..limit - 1];
      var after := StripRightMeans(head);
      kept := |StripRight(head)|;
      assert StripRight(head) == Strip(t)[..kept];
      assert after == Strip(t)[kept..limit - 1];
    }
  }

  function Said(m: Message): Text {
    Literal(if m.role == "user" then "- [user] " else "- [agent] ") + Clip(m.content, 300)
  }

  function Shown(m: Message): Text {
    Literal("[") + Literal(m.role) + Literal("] ") + Clip(m.content, 300)
  }

  // ---------------------------------------------------------------- all lines

  /** The lines of the messages one after the other, with a line break between two. */
  function Lines(ms: seq<Message>, line: Message -> Text): Text {
    if ms == [] then []
    else if |ms| == 1 then line(ms[0])
    else line(ms[0]) + [0x0A] + Lines(ms[1..], line)
  }

  lemma {:induction false} JoinFront(lines: seq<Text>)
    requires |lines| > 1
    ensures JoinLines(lines) == lines[0] + NEWLINE + JoinLines(lines[1..])
  {
    var init, last := lines[..|lines| - 1], lines[|lines| - 1];
    if |lines| == 2 {
      assert init == [lines[0]] && lines[1..] == [last];
    } else {
      JoinFront(init);
      assert init[1..] == lines[1..][..|lines[1..]| - 1];
    }
  }

  lemma {:induction false} JoinIsLines(ms: seq<Message>, line: Message -> Text)
    ensures JoinLines(seq(|ms|, i requires 0 <= i < |ms| => line(ms[i]))) == Lines(ms, line)
  {
    var lines := seq(|ms|, i requires 0 <= i < |ms| => line(ms[i]));
    if |ms| > 1 {
      JoinFront(lines);
      JoinIsLines(ms[1..], line);
      assert lines[1..] == seq(|ms[1..]|, i requires 0 <= i < |ms[1..]| => line(ms[1..][i]));
    }
  }

  lemma {:induction false} LinesJoin(a: seq<Message>, b: seq<Message>, line: Message -> Text)
    requires a != [] && b != []
    ensures Lines(a + b, line) == Lines(a, line) + [0x0A] + Lines(b, line)
  {
    assert (a + b)[1..] == a[1..] + b;
    if |a| == 1 {
      assert a[1..] + b == b;
    } else {
      LinesJoin(a[1..], b, line);
    }
  }

  /** The lines of a summary before it is cut. */
  function Whole(ms: seq<Message>): Text {
    Lines(ms, m => Said(m))
  }

  lemma SaidIsLine(m: Message)
    ensures Said(m) == SummaryLine(m)
  {
  }

  lemma WholeIsJoined(ms: seq<Message>)
    ensures Whole(ms) == JoinLines(SummaryLines(ms))
  {
    hide SummaryLine, Said, JoinLines;
    JoinIsLines(ms, m => Said(m));
    forall i | 0 <= i < |ms| ensures Said(ms[i]) == SummaryLine(ms[i]) {
      SaidIsLine(ms[i]);
    }
    assert SummaryLines(ms) == seq(|ms|, i requires 0 <= i < |ms| => (m => Said(m))(ms[i]));
  }

  predicate EndsWith(t: Text, end: Text) {
    |end| <= |t| && t[|t| - |end|..] == end
  }

  /** A summary is the lines of its messages; if they take more than two thousand characters, it is
      the mark of the cut and their last two thousand. */
  lemma SummaryMeans(ms: seq<Message>)
    ensures |Whole(ms)| <= 2000 ==> SummaryOf(ms) == Whole(ms)
    ensures |Whole(ms)| > 2000 ==>
              exists cut: Text, tail: Text ::
                Whole(ms) == cut + tail && |tail| == 2000 && SummaryOf(ms) == [0x2026] + tail
  {
    hide Whole, SummaryLines, JoinLines;
    WholeIsJoined(ms);
    if |Whole(ms)| > 2000 {
      var k := |Whole(ms)| - 2000;
      assert Whole(ms) == Whole(ms)[..k] + Whole(ms)[k..];
    }
  }

  lemma WholeStarts(ms: seq<Message>)
    requires ms != []
    ensures Whole(ms) != [] && Whole(ms)[0] == 0x2D
  {
    assert Said(ms[0])[0] == Literal("- ")[0];
  }

  /** The newest messages stand whole at the end of a summary exactly when their lines fit the two
      thousand characters; and then nothing but a line break or the mark of the cut comes right
      before them, if anything does. */
  lemma NewestStandWhole(ms: seq<Message>, k: nat)
    requires 0 < k <= |ms|
    ensures EndsWith(SummaryOf(ms), Whole(ms[|ms| - k..])) <==> |Whole(ms[|ms| - k..])| <= 2000
  {
    hide Whole, SummaryOf;
    var newest := ms[|ms| - k..];
    SummaryMeans(ms);
    WholeStarts(newest);
    NewestEnd(ms, k);
    if |Whole(ms)| > 2000 {
      var cut, tail :| Whole(ms) == cut + tail && |tail| == 2000 && SummaryOf(ms) == [0x2026] + tail;
      if |Whole(newest)| <= 2000 {
        SuffixOfSuffix(cut, tail, Whole(newest));
        SuffixOfSuffix([0x2026], tail, Whole(newest));
      } else if |Whole(newest)| == 2001 {
        assert SummaryOf(ms)[0] == 0x2026;
      }
    }
  }

  lemma NewestEnd(ms: seq<Message>, k: nat)
    requires 0 < k <= |ms|
    ensures EndsWith(Whole(ms), Whole(ms[|ms| - k..]))
    ensures k < |ms| ==> Whole(ms) == Whole(ms[..|ms| - k]) + [0x0A] + Whole(ms[|ms| - k..])
  {
    var older, newest := ms[..|ms| - k], ms[|ms| - k..];
    assert ms == older + newest;
    if older != [] {
      LinesJoin(older, newest, m => Said(m));
    } else {
      assert ms == newest;
    }
  }

  lemma SuffixOfSuffix(cut: Text, tail: Text, end: Text)
    requires |end| <= |tail|
    ensures EndsWith(cut + tail, end) <==> EndsWith(tail, end)
  {
    assert (cut + tail)[|cut + tail| - |end|..] == tail[|tail| - |end|..];
  }

  /** The window shows its messages, oldest first, a line each: the role in brackets and the clipped
      text. */
  lemma WindowMeans(ms: seq<Message>)
    ensures Render(ms) == Lines(ms, m => Shown(m))
  {
    hide WindowLine, Shown, JoinLines;
    JoinIsLines(ms, m => Shown(m));
    forall i | 0 <= i < |ms| ensures Shown(ms[i]) == WindowLine(ms[i]) {
      ShownIsLine(ms[i]);
    }
    assert seq(|ms|, i requires 0 <= i < |ms| => WindowLine(ms[i])) == seq(|ms|, i requires 0 <= i < |ms| => (m => Shown(m))(ms[i]));
  }

  lemma ShownIsLine(m: Message)
    ensures Shown(m) == WindowLine(m)
  {
    assert Literal("[" + m.role + "] ") == Literal("[") + Literal(m.role) + Literal("] ");
  }
}
