/** Layered conversational context: a rolling summary of the older messages and a verbatim
    window of the newest ones. The stored summary is a cache; what is assembled is proved to
    agree with a computation over the message list alone. */
module ThreadContext {
  import opened Wrappers
  import opened Utf8
  import opened Texts
  import opened ButlerThreads

  const MAX_SUMMARY_CHARS := 2000
  const WINDOW_LINE_CHARS := 300
  const ELLIPSIS: Text := [0x2026]
  const NEWLINE: Text := [0x0A]

  datatype Context = Context(summary: Text, window: Text)

  function Clip(text: Text, limit: nat): Text
    requires limit >= 1
  {
    var stripped := Strip(text);
    if |stripped| <= limit then stripped else StripRight(stripped[..limit - 1]) + ELLIPSIS
  }

  function SummaryLine(m: Message): Text {
    Literal(if m.role == "user" then "- [user] " else "- [agent] ") + Clip(m.content, WINDOW_LINE_CHARS)
  }

  function WindowLine(m: Message): Text {
    Literal("[" + m.role + "] ") + Clip(m.content, WINDOW_LINE_CHARS)
  }

  function JoinLines(lines: seq<Text>): Text {
    if lines == [] then []
    else if |lines| == 1 then lines[0]
    else JoinLines(lines[..|lines| - 1]) + NEWLINE + lines[|lines| - 1]
  }

  function SummaryLines(ms: seq<Message>): (lines: seq<Text>)
    ensures |lines| == |ms|
  {
    seq(|ms|, i requires 0 <= i < |ms| => SummaryLine(ms[i]))
  }

  /** The summary of some messages: their lines, or the most recent part of them. */
  function SummaryOf(ms: seq<Message>): Text {
    var text := JoinLines(SummaryLines(ms));
    if |text| > MAX_SUMMARY_CHARS then ELLIPSIS + text[|text| - MAX_SUMMARY_CHARS..] else text
  }

  function Render(ms: seq<Message>): Text {
    JoinLines(seq(|ms|, i requires 0 <= i < |ms| => WindowLine(ms[i])))
  }

  /** The context with the first `k` messages summarised and the others verbatim. */
  function Split(ms: seq<Message>, k: nat): Context
    requires k <= |ms|
  {
    Context(if k == 0 then [] else SummaryOf(ms[..k]), Render(ms[k..]))
  }

  /** How many messages lie behind a window of the given size. */
  function Behind(count: nat, window: int): nat {
    if window >= 0 && count > window then count - window else 0
  }

  /** The simple thing: summarise all but the last `window` messages, show exactly those. */
  function Reference(ms: seq<Message>, window: nat): Context {
    Split(ms, Behind(|ms|, window))
  }

  lemma {:induction false} JoinStarts(lines: seq<Text>)
    requires lines != [] && lines[0] != []
    ensures JoinLines(lines) != [] && JoinLines(lines)[0] == lines[0][0]
  {
    if |lines| > 1 {
      JoinStarts(lines[..|lines| - 1]);
    }
  }

  /** A summary of at least one message is never blank, so the store takes it. */
  lemma SummaryIsContent(ms: seq<Message>)
    requires ms != []
    ensures !Blank(SummaryOf(ms))
  {
    JoinStarts(SummaryLines(ms));
    NotBlank(SummaryOf(ms), 0);
  }

  /** The characters of the summary lines, each with the line break after it. */
  function LineChars(ms: seq<Message>): nat {
    if ms == [] then 0 else LineChars(ms[..|ms| - 1]) + |SummaryLine(ms[|ms| - 1])| + 1
  }

  lemma {:induction false} JoinedLength(ms: seq<Message>)
    requires ms != []
    ensures |JoinLines(SummaryLines(ms))| + 1 == LineChars(ms)
  {
    hide SummaryLine;
    if |ms| > 1 {
      JoinedLength(ms[..|ms| - 1]);
      assert SummaryLines(ms)[..|ms| - 1] == SummaryLines(ms[..|ms| - 1]);
    } else {
      assert ms[..0] == [];
    }
  }

  /** The cap is exceeded exactly when something has to be cut, and then by one character: the
      mark of the cut. */
  lemma SummaryIsShort(ms: seq<Message>)
    ensures |SummaryOf(ms)| > MAX_SUMMARY_CHARS <==> LineChars(ms) > MAX_SUMMARY_CHARS + 1
    ensures LineChars(ms) > MAX_SUMMARY_CHARS + 1 ==> |SummaryOf(ms)| == MAX_SUMMARY_CHARS + 1
  {
    hide SummaryLines;
    if ms != [] {
      JoinedLength(ms);
    }
  }

  const LONG_MESSAGE := Message([], [], "user", seq(WINDOW_LINE_CHARS, _ => 0x61))

  /** Seven messages of three hundred letters are enough. */
  lemma SevenLongMessagesExceedTheCap()
    ensures |SummaryOf(seq(7, _ => LONG_MESSAGE))| == MAX_SUMMARY_CHARS + 1
  {
    StripOfSolid(LONG_MESSAGE.content);
    assert |SummaryLine(LONG_MESSAGE)| == 309;
    LongChars(7);
    SummaryIsShort(seq(7, _ => LONG_MESSAGE));
  }

  lemma {:induction false} LongChars(n: nat)
    requires |SummaryLine(LONG_MESSAGE)| == 309
    ensures LineChars(seq(n, _ => LONG_MESSAGE)) == 310 * n
  {
    hide SummaryLine, LONG_MESSAGE;
    if n > 0 {
      LongChars(n - 1);
      assert seq(n, _ => LONG_MESSAGE)[..n - 1] == seq(n - 1, _ => LONG_MESSAGE);
    }
  }

  // ---------------------------------------------------------------- boundaries

  /** How many of the rows a boundary covers. */
  function CoveredCount(rows: seq<Numbered>, upTo: int): (k: nat)
    ensures k <= |rows|
  {
    if rows == [] then 0
    else CoveredCount(rows[..|rows| - 1], upTo) + if rows[|rows| - 1].rowid <= upTo then 1 else 0
  }

  /** Covered rows come first. */
  lemma {:induction false} CoveredComeFirst(rows: seq<Numbered>, upTo: int)
    requires Ascending(rows)
    ensures forall i | 0 <= i < |rows| :: rows[i].rowid <= upTo <==> i < CoveredCount(rows, upTo)
  {
    if rows != [] {
      CoveredComeFirst(rows[..|rows| - 1], upTo);
    }
  }

  /** A boundary at a row covers exactly the rows up to it. */
  lemma CoveredAtRow(rows: seq<Numbered>, k: nat)
    requires Ascending(rows) && k < |rows|
    ensures CoveredCount(rows, rows[k].rowid) == k + 1
  {
    CoveredComeFirst(rows, rows[k].rowid);
  }

  lemma {:induction false} CoversNothing(rows: seq<Numbered>)
    requires forall i | 0 <= i < |rows| :: rows[i].rowid >= 1
    ensures CoveredCount(rows, 0) == 0
  {
    if rows != [] {
      CoversNothing(rows[..|rows| - 1]);
    }
  }

  // ---------------------------------------------------------------- the cache

  /** A stored summary says what its boundary covers. */
  ghost predicate FaithfulAt(t: Tables, k: (Id, Text)) {
    k in t.summaries ==>
      var rows := Rows(t.messages, k.0);
      && CoveredCount(rows, t.summaries[k].upTo) >= 1
      && t.summaries[k].content == SummaryOf(Contents(rows)[..CoveredCount(rows, t.summaries[k].upTo)])
  }

  ghost predicate Faithful(t: Tables) {
    TablesOk(t) && forall k {:trigger FaithfulAt(t, k)} :: FaithfulAt(t, k)
  }

  /** No stored boundary has passed the start of its thread's window. */
  ghost predicate Lags(t: Tables, window: int) {
    forall k | k in t.summaries ::
      CoveredCount(Rows(t.messages, k.0), t.summaries[k].upTo) <= Behind(|Rows(t.messages, k.0)|, window)
  }

  /** How many messages of the owner's thread the stored summary covers. */
  function StoredCount(t: Tables, owner: Text, threadId: Id): nat {
    var stored := StoredSummary(t, owner, threadId);
    if stored.Some? then CoveredCount(Rows(t.messages, threadId), stored.value.upTo) else 0
  }

  /** The boundary asked for, or the row just behind the window. A negative position counts
      from the end, as it does in the source's language. */
  function Boundary(rows: seq<Numbered>, window: int, upTo: Option<int>): Result<int> {
    if upTo.Some? then Ok(upTo.value)
    else if |rows| <= window then Err(Invalid)
    else if window + 1 > 0 then Ok(rows[|rows| - (window + 1)].rowid)
    else if -(window + 1) < |rows| then Ok(rows[-(window + 1)].rowid)
    else Err(OutOfRange)
  }

  /** `summarize_prefix`. */
  function Summarized(t: Tables, window: int, owner: Text, threadId: Id, upTo: Option<int>): Result<Tables> {
    match ListedRows(t, owner, threadId)
    case Err(failure) => Err(failure)
    case Ok(rows) =>
      if rows == [] then Err(Invalid)
      else
        match Boundary(rows, window, upTo)
        case Err(failure) => Err(failure)
        case Ok(boundary) =>
          var covered := CoveredCount(rows, boundary);
          if covered == 0 then Err(Invalid)
          else SummarySet(t, owner, threadId, SummaryOf(Contents(rows)[..covered]), boundary)
  }

  datatype Assembly = Assembly(outcome: Result<Context>, tables: Tables)

  /** `ms[-window:]`, with the meaning a zero or negative count has there. */
  function Newest(ms: seq<Message>, window: int): seq<Message> {
    if window > 0 then (if window < |ms| then ms[|ms| - window..] else ms)
    else if -window < |ms| then ms[-window..] else []
  }

  /** What `assemble` leaves: the context, and the tables with the summary moved up if it lagged. */
  function Assembled(t: Tables, window: int, owner: Text, threadId: Id): Assembly {
    match ListedRows(t, owner, threadId)
    case Err(failure) => Assembly(Err(failure), t)
    case Ok(rows) =>
      var n, stored := |rows|, StoredSummary(t, owner, threadId);
      var start := n - (if window < n then window else n);
      var covered := StoredCount(t, owner, threadId);
      if rows != [] && start > n then Assembly(Err(OutOfRange), t)
      else if rows != [] && start > covered then
        match Summarized(t, window, owner, threadId, Some(rows[start - 1].rowid))
        case Err(failure) => Assembly(Err(failure), t)
        case Ok(t') =>
          Assembly(Ok(Context(SummaryOf(Contents(rows)[..start]), Render(Newest(Contents(rows)[start..], window)))), t')
      else
        Assembly(Ok(Context(if stored.Some? then stored.value.content else [],
                            Render(Newest(Contents(rows)[covered..], window)))), t)
  }

  // ---------------------------------------------------------------- the engine

  class ThreadContextEngine {
    const store: ThreadStore
    const window: int

    constructor (store: ThreadStore, window: int)
      ensures this.store == store && this.window == window
    {
      this.store := store;
      this.window := window;
    }

    method SummarizeLines(ms: seq<Message>) returns (text: Text)
      ensures text == SummaryOf(ms)
    {
      var lines: seq<Text> := [];
      for i := 0 to |ms|
        invariant lines == SummaryLines(ms[..i])
      {
        assert ms[..i + 1][..i] == ms[..i];
        lines := lines + [SummaryLine(ms[i])];
        assert lines == SummaryLines(ms[..i + 1]);
      }
      assert ms[..|ms|] == ms;
      text := JoinLines(lines);
      if |text| > MAX_SUMMARY_CHARS {
        text := ELLIPSIS + text[|text| - MAX_SUMMARY_CHARS..];
      }
    }

    /** The messages of the rows a boundary covers, or of those it does not. */
    method CoveredMessages(rows: seq<Numbered>, upTo: int) returns (covered: seq<Message>, others: seq<Message>)
      requires Ascending(rows)
      ensures covered == Contents(rows)[..CoveredCount(rows, upTo)]
      ensures others == Contents(rows)[CoveredCount(rows, upTo)..]
    {
      covered, others := [], [];
      var k := CoveredCount(rows, upTo);
      CoveredComeFirst(rows, upTo);
      for i := 0 to |rows|
        invariant covered == Contents(rows)[..if i < k then i else k]
        invariant others == if i < k then [] else Contents(rows)[k..i]
      {
        if rows[i].rowid <= upTo {
          covered := covered + [rows[i].message];
        } else {
          others := others + [rows[i].message];
        }
      }
    }

    method SummarizePrefix(owner: Text, threadId: Id, upTo: Option<int>) returns (r: Result<Summary>)
      requires TablesOk(store.tables)
      modifies store
      ensures TablesOk(store.tables)
      ensures match Summarized(old(store.tables), window, owner, threadId, upTo)
              case Ok(tables) =>
                && store.tables == tables && r.Ok?
                && StoredSummary(tables, owner, threadId) == Some(r.value)
              case Err(failure) => store.tables == old(store.tables) && r == Err(failure)
    {
      hide Strip, SummaryOf, Rows, CoveredCount, JoinLines, TablesOk, RowsOf, Boundary, CheckThread, Newest;
      var listed := store.ListMessageRows(owner, threadId);
      if listed.Err? {
        return Err(listed.failure);
      }
      var rows := listed.value;
      RowsAscend(store.tables.messages, threadId);
      assert rows == Rows(store.tables.messages, threadId);
      if rows == [] {
        return Err(Invalid);
      }
      var boundary := Boundary(rows, window, upTo);
      if boundary.Err? {
        return Err(boundary.failure);
      }
      var covered, _ := CoveredMessages(rows, boundary.value);
      if covered == [] {
        return Err(Invalid);
      }
      var text := SummarizeLines(covered);
      r := store.SetSummary(owner, threadId, text, boundary.value);
    }

    method Assemble(owner: Text, threadId: Id) returns (r: Result<Context>)
      requires TablesOk(store.tables)
      modifies store
      ensures TablesOk(store.tables)
      ensures Assembly(r, store.tables) == Assembled(old(store.tables), window, owner, threadId)
    {
      hide Strip, SummaryOf, Rows, CoveredCount, JoinLines, TablesOk, RowsOf, CheckThread, Newest;
      var listed := store.ListMessageRows(owner, threadId);
      if listed.Err? {
        return Err(listed.failure);
      }
      var rows := listed.value;
      RowsAscend(store.tables.messages, threadId);
      assert rows == Rows(store.tables.messages, threadId);
      var found := store.GetSummary(owner, threadId);
      var summaryText, coveredRowid: int := [], 0;
      CoversNothing(rows);
      if found.Ok? && found.value.Some? {
        summaryText, coveredRowid := found.value.value.content, found.value.value.upTo;
      }
      assert CoveredCount(rows, coveredRowid) == StoredCount(store.tables, owner, threadId);
      if rows != [] {
        var keep := if window < |rows| then window else |rows|;
        var start := |rows| - keep;
        if start > |rows| {
          return Err(OutOfRange);
        }
        if start > 0 {
          var boundary := rows[start - 1].rowid;
          CoveredAtRow(rows, start - 1);
          CoveredComeFirst(rows, coveredRowid);
          if coveredRowid < boundary {
            var stored := SummarizePrefix(owner, threadId, Some(boundary));
            if stored.Err? {
              return Err(stored.failure);
            }
            summaryText, coveredRowid := stored.value.content, stored.value.upTo;
          }
        }
      }
      var _, others := CoveredMessages(rows, coveredRowid);
      return Ok(Context(summaryText, Render(Newest(others, window))));
    }
  }

  // ---------------------------------------------------------------- the cache agrees with the simple thing

  lemma CoverageGrows(messages: seq<Message>, m: Message, threadId: Id, upTo: nat)
    requires upTo <= |messages|
    ensures CoveredCount(Rows(messages + [m], threadId), upTo) == CoveredCount(Rows(messages, threadId), upTo)
    ensures Contents(Rows(messages, threadId)) <= Contents(Rows(messages + [m], threadId))
  {
    RowsAppend(messages, m, threadId);
    if m.threadId == threadId {
      var rows := Rows(messages, threadId);
      var row := Numbered(|messages| + 1, m);
      assert (rows + [row])[..|rows|] == rows;
    } else {
      assert Rows(messages + [m], threadId) == Rows(messages, threadId);
    }
  }

  lemma AppendKeeps(t: Tables, owner: Text, threadId: Id, role: string, content: Text, newId: Id, window: int)
    requires Faithful(t) && Appended(t, owner, threadId, role, content, newId).Ok?
    ensures var t' := Appended(t, owner, threadId, role, content, newId).value;
            Faithful(t') && (Lags(t, window) ==> Lags(t', window))
  {
    hide Rows, CoveredCount, SummaryOf, Contents, Strip, Behind;
    var t' := Appended(t, owner, threadId, role, content, newId).value;
    var m := Message(newId, threadId, role, content);
    forall k | k in t.summaries
      ensures FaithfulAt(t', k)
      ensures Lags(t, window) ==> CoveredCount(Rows(t'.messages, k.0), t.summaries[k].upTo) <= Behind(|Rows(t'.messages, k.0)|, window)
    {
      assert FaithfulAt(t, k);
      CoverageGrows(t.messages, m, k.0, t.summaries[k].upTo);
      var c := CoveredCount(Rows(t.messages, k.0), t.summaries[k].upTo);
      assert Contents(Rows(t'.messages, k.0))[..c] == Contents(Rows(t.messages, k.0))[..c] by {
        ContentsLength(Rows(t.messages, k.0));
      }
      BehindGrows(|Rows(t.messages, k.0)|, |Rows(t'.messages, k.0)|, window);
      RowsGrow(t.messages, m, k.0);
    }
  }

  lemma ContentsLength(rows: seq<Numbered>)
    ensures |Contents(rows)| == |rows|
  {
  }

  lemma RowsGrow(messages: seq<Message>, m: Message, threadId: Id)
    ensures |Rows(messages, threadId)| <= |Rows(messages + [m], threadId)|
  {
    RowsAppend(messages, m, threadId);
  }

  lemma BehindGrows(n: nat, n': nat, window: int)
    ensures n <= n' ==> Behind(n, window) <= Behind(n', window)
  {
  }

  /** Whatever boundary a summary is built for, the tables stay faithful. */
  lemma SummarizeKeeps(t: Tables, window: int, owner: Text, threadId: Id, upTo: Option<int>)
    requires Faithful(t) && Summarized(t, window, owner, threadId, upTo).Ok?
    ensures Faithful(Summarized(t, window, owner, threadId, upTo).value)
  {
    hide Rows, SummaryOf, Contents, Strip, Blank, Boundary, CoveredCount, CheckThread;
    var t' := Summarized(t, window, owner, threadId, upTo).value;
    forall k | k in t'.summaries ensures FaithfulAt(t', k) {
      assert FaithfulAt(t, k);
    }
  }

  /** The default boundary leaves exactly the window uncovered. */
  lemma DefaultBoundary(rows: seq<Numbered>, window: nat)
    requires Ascending(rows) && Boundary(rows, window, None).Ok?
    ensures CoveredCount(rows, Boundary(rows, window, None).value) == Behind(|rows|, window)
  {
    CoveredAtRow(rows, |rows| - (window + 1));
  }

  lemma SummarizeLags(t: Tables, window: nat, owner: Text, threadId: Id, upTo: Option<int>)
    requires Faithful(t) && Lags(t, window) && Summarized(t, window, owner, threadId, upTo).Ok?
    requires upTo.Some? ==> CoveredCount(Rows(t.messages, threadId), upTo.value) <= Behind(|Rows(t.messages, threadId)|, window)
    ensures Lags(Summarized(t, window, owner, threadId, upTo).value, window)
    ensures upTo.None? ==> StoredCount(Summarized(t, window, owner, threadId, upTo).value, owner, threadId)
                           == Behind(|Rows(t.messages, threadId)|, window)
  {
    hide Rows, CoveredCount, SummaryOf, Contents, Strip, Blank, Behind, Boundary;
    RowsAscend(t.messages, threadId);
    if upTo.None? {
      DefaultBoundary(Rows(t.messages, threadId), window);
    } else {
      GivenBoundary(Rows(t.messages, threadId), window, upTo.value);
    }
  }

  lemma GivenBoundary(rows: seq<Numbered>, window: int, upTo: int)
    ensures Boundary(rows, window, Some(upTo)) == Ok(upTo)
  {
  }

  /** What `assemble` answers and leaves, over any faithful store: the summary covers the first
      k messages and the window shows all the others, with no gap and no overlap, where k is
      the larger of the stored boundary and the start of the window; the window never holds
      more messages than it may. It fails, for an owned thread, exactly when the window is
      negative and there are messages. */
  lemma AssembleSplits(t: Tables, window: int, owner: Text, threadId: Id)
    requires Faithful(t) && CheckThread(t, owner, threadId).None?
    ensures var rows := Rows(t.messages, threadId);
            var a := Assembled(t, window, owner, threadId);
            && (a.outcome.Ok? <==> window >= 0 || rows == [])
            && (a.outcome.Ok? ==>
                  var c := StoredCount(t, owner, threadId);
                  var k := if c > Behind(|rows|, window) then c else Behind(|rows|, window);
                  && a.outcome.value == Split(Contents(rows), k) && (window >= 0 ==> |rows| - k <= window)
                  && StoredCount(a.tables, owner, threadId) == k && Faithful(a.tables))
  {
    hide Strip, SummaryOf, Rows, CoveredCount, Render, Blank, Faithful, Split, Summarized, Newest;
    var rows := Rows(t.messages, threadId);
    StoredFacts(t, owner, threadId);
    if rows != [] && WindowStart(|rows|, window) > StoredCount(t, owner, threadId) {
      if window >= 0 {
        LaggingSplits(t, window, owner, threadId);
      }
    } else {
      CurrentSplits(t, window, owner, threadId);
    }
  }

  function WindowStart(n: nat, window: int): int {
    n - (if window < n then window else n)
  }

  /** The stored summary lags: it is moved up to the start of the window. */
  lemma LaggingSplits(t: Tables, window: nat, owner: Text, threadId: Id)
    requires Faithful(t) && CheckThread(t, owner, threadId).None?
    requires WindowStart(|Rows(t.messages, threadId)|, window) > StoredCount(t, owner, threadId)
    ensures var rows := Rows(t.messages, threadId);
            var a := Assembled(t, window, owner, threadId);
            && a.outcome == Ok(Split(Contents(rows), Behind(|rows|, window)))
            && StoredCount(a.tables, owner, threadId) == Behind(|rows|, window) && Faithful(a.tables)
  {
    hide Strip, SummaryOf, Rows, CoveredCount, Render, Blank, Summarized, Faithful, Newest;
    var rows := Rows(t.messages, threadId);
    var start := WindowStart(|rows|, window);
    SummaryMovesUp(t, window, owner, threadId, start);
    NewestIsAll(Contents(rows)[start..], window);
  }

  /** Summarising up to a row always succeeds for the owner, and covers exactly the rows up to it. */
  lemma SummaryMovesUp(t: Tables, window: int, owner: Text, threadId: Id, start: nat)
    requires Faithful(t) && CheckThread(t, owner, threadId).None?
    requires 0 < start <= |Rows(t.messages, threadId)|
    ensures var rows := Rows(t.messages, threadId);
            var r := Summarized(t, window, owner, threadId, Some(rows[start - 1].rowid));
            && r.Ok? && Faithful(r.value) && r.value.messages == t.messages
            && StoredCount(r.value, owner, threadId) == start
  {
    hide Strip, SummaryOf, Rows, CoveredCount, Blank, Faithful;
    var rows := Rows(t.messages, threadId);
    var b := rows[start - 1].rowid;
    RowsAscend(t.messages, threadId);
    CoveredAtRow(rows, start - 1);
    GivenBoundary(rows, window, b);
    SummaryIsContent(Contents(rows)[..start]);
    assert Summarized(t, window, owner, threadId, Some(b)) ==
           Ok(t.(summaries := t.summaries[(threadId, Strip(owner)) := Summary(SummaryOf(Contents(rows)[..start]), b)]));
    SummarizeKeeps(t, window, owner, threadId, Some(b));
  }

  /** The stored summary reaches the window or past its start: it is used as it is. */
  lemma CurrentSplits(t: Tables, window: int, owner: Text, threadId: Id)
    requires Faithful(t) && CheckThread(t, owner, threadId).None?
    requires var rows := Rows(t.messages, threadId);
             rows == [] || WindowStart(|rows|, window) <= StoredCount(t, owner, threadId)
    ensures var rows, c := Rows(t.messages, threadId), StoredCount(t, owner, threadId);
            && (window >= 0 || rows == [])
            && Assembled(t, window, owner, threadId) == Assembly(Ok(Split(Contents(rows), c)), t)
  {
    hide Strip, SummaryOf, Rows, CoveredCount, Render, Blank, Faithful;
    StoredFacts(t, owner, threadId);
    NewestIsAll(Contents(Rows(t.messages, threadId))[StoredCount(t, owner, threadId)..], window);
  }

  lemma NewestIsAll(ms: seq<Message>, window: int)
    requires |ms| <= window || ms == []
    ensures Newest(ms, window) == ms
  {
  }

  /** A stored summary covers messages and says what they say; none covers nothing. */
  lemma StoredFacts(t: Tables, owner: Text, threadId: Id)
    requires Faithful(t)
    ensures var stored := StoredSummary(t, owner, threadId);
            var c := StoredCount(t, owner, threadId);
            && (stored.None? ==> c == 0)
            && (stored.Some? ==> c >= 1 && stored.value.content == SummaryOf(Contents(Rows(t.messages, threadId))[..c]))
            && c <= |Rows(t.messages, threadId)|
  {
    hide Strip, SummaryOf, Rows;
    assert FaithfulAt(t, (threadId, Strip(owner)));
  }

  // ---------------------------------------------------------------- every run

  /** What may happen to the store and the engine, with the default boundary throughout. */
  datatype Event =
    | Append(owner: Text, threadId: Id, role: string, content: Text, newId: Id)
    | OpenWorkspace(owner: Text, title: Text, newId: Id)
    | Open(owner: Text, workspace: Id, title: Text, parent: Option<Id>, newId: Id)
    | AssembleTurn(owner: Text, threadId: Id)
    | Summarize(owner: Text, threadId: Id)

  function After(t: Tables, window: nat, e: Event): Tables {
    match e
    case Append(owner, threadId, role, content, newId) => (
      match Appended(t, owner, threadId, role, content, newId)
      case Ok(t') => t'
      case Err(_) => t)
    case OpenWorkspace(owner, title, newId) => (
      match CreatedWorkspace(t, owner, title, newId)
      case Ok(t') => t'
      case Err(_) => t)
    case Open(owner, workspace, title, parent, newId) => (
      match CreatedThread(t, owner, workspace, title, parent, newId)
      case Ok(t') => t'
      case Err(_) => t)
    case AssembleTurn(owner, threadId) => Assembled(t, window, owner, threadId).tables
    case Summarize(owner, threadId) => (
      match Summarized(t, window, owner, threadId, None)
      case Ok(t') => t'
      case Err(_) => t)
  }

  function RunEvents(t: Tables, window: nat, events: seq<Event>): Tables
    decreases |events|
  {
    if events == [] then t else RunEvents(After(t, window, events[0]), window, events[1..])
  }

  ghost predicate CacheOk(t: Tables, window: nat) {
    Faithful(t) && Lags(t, window)
  }

  lemma AssembleKeeps(t: Tables, window: nat, owner: Text, threadId: Id)
    requires CacheOk(t, window)
    ensures CacheOk(Assembled(t, window, owner, threadId).tables, window)
  {
    hide Strip, SummaryOf, Rows, CoveredCount, Render, Blank, Newest, Behind, Faithful, Lags, CheckThread;
    var rows := Rows(t.messages, threadId);
    var start := |rows| - (if window < |rows| then window else |rows|);
    if CheckThread(t, owner, threadId).None? && rows != [] && start > StoredCount(t, owner, threadId) {
      var b := rows[start - 1].rowid;
      RowsAscend(t.messages, threadId);
      CoveredAtRow(rows, start - 1);
      assert Behind(|rows|, window) == start by { BehindIs(|rows|, window); }
      if Summarized(t, window, owner, threadId, Some(b)).Ok? {
        SummarizeKeeps(t, window, owner, threadId, Some(b));
        SummarizeLags(t, window, owner, threadId, Some(b));
      }
    }
  }

  lemma BehindIs(n: nat, window: nat)
    ensures Behind(n, window) == n - (if window < n then window else n)
  {
  }

  lemma OpenKeeps(t: Tables, owner: Text, workspace: Id, title: Text, parent: Option<Id>, newId: Id, window: nat)
    requires CacheOk(t, window) && CreatedThread(t, owner, workspace, title, parent, newId).Ok?
    ensures CacheOk(CreatedThread(t, owner, workspace, title, parent, newId).value, window)
  {
    hide Strip, SummaryOf, Rows, CoveredCount, Blank;
    var t' := CreatedThread(t, owner, workspace, title, parent, newId).value;
    forall k ensures FaithfulAt(t', k) {
      assert FaithfulAt(t, k);
    }
  }

  lemma OpenWorkspaceKeeps(t: Tables, owner: Text, title: Text, newId: Id, window: nat)
    requires CacheOk(t, window) && CreatedWorkspace(t, owner, title, newId).Ok?
    ensures CacheOk(CreatedWorkspace(t, owner, title, newId).value, window)
  {
    hide Strip, SummaryOf, Rows, CoveredCount, Blank;
    var t' := CreatedWorkspace(t, owner, title, newId).value;
    forall k ensures FaithfulAt(t', k) {
      assert FaithfulAt(t, k);
    }
  }

  lemma EventKeeps(t: Tables, window: nat, e: Event)
    requires CacheOk(t, window)
    ensures CacheOk(After(t, window, e), window)
  {
    hide Faithful, Lags, Summarized, Appended, CreatedWorkspace, CreatedThread, Assembled;
    match e
    case Append(owner, threadId, role, content, newId) =>
      if Appended(t, owner, threadId, role, content, newId).Ok? {
        AppendKeeps(t, owner, threadId, role, content, newId, window);
      }
    case OpenWorkspace(owner, title, newId) =>
      if CreatedWorkspace(t, owner, title, newId).Ok? {
        OpenWorkspaceKeeps(t, owner, title, newId, window);
      }
    case Open(owner, workspace, title, parent, newId) =>
      if CreatedThread(t, owner, workspace, title, parent, newId).Ok? {
        OpenKeeps(t, owner, workspace, title, parent, newId, window);
      }
    case AssembleTurn(owner, threadId) => AssembleKeeps(t, window, owner, threadId);
    case Summarize(owner, threadId) =>
      if Summarized(t, window, owner, threadId, None).Ok? {
        SummarizeKeeps(t, window, owner, threadId, None);
        SummarizeLags(t, window, owner, threadId, None);
      }
  }

  lemma {:induction false} RunKeeps(t: Tables, window: nat, events: seq<Event>)
    requires CacheOk(t, window)
    ensures CacheOk(RunEvents(t, window, events), window)
    decreases |events|
  {
    hide CacheOk, After;
    if events != [] {
      EventKeeps(t, window, events[0]);
      RunKeeps(After(t, window, events[0]), window, events[1..]);
    }
  }

  /** The rolling summary agrees with the simple thing: after any interleaving of appends to
      any threads, new threads, assemblies and default summaries, what is assembled for a
      thread is the reference context of that thread's messages and of nothing else. */
  lemma CacheAgreesWithReference(t: Tables, window: nat, events: seq<Event>, owner: Text, threadId: Id)
    requires CacheOk(t, window)
    ensures var t' := RunEvents(t, window, events);
            CheckThread(t', owner, threadId).None? ==>
              Assembled(t', window, owner, threadId).outcome == Ok(Reference(Contents(Rows(t'.messages, threadId)), window))
  {
    hide Assembled, Rows, Split, Faithful, RunEvents, Strip;
    RunKeeps(t, window, events);
    var t' := RunEvents(t, window, events);
    if CheckThread(t', owner, threadId).None? {
      AssembleSplits(t', window, owner, threadId);
      LagsAt(t', window, owner, threadId);
    }
  }

  lemma LagsAt(t: Tables, window: nat, owner: Text, threadId: Id)
    requires Lags(t, window)
    ensures StoredCount(t, owner, threadId) <= Behind(|Rows(t.messages, threadId)|, window)
  {
    hide Rows, CoveredCount, Strip;
  }

  const EMPTY_TABLES := Tables(map[], map[], [], map[])

  lemma EmptyCache(window: nat)
    ensures CacheOk(EMPTY_TABLES, window)
  {
  }

  /** The agreement, for every run of a new store. */
  lemma NewStoreAgrees(window: nat, events: seq<Event>, owner: Text, threadId: Id)
    ensures var t := RunEvents(EMPTY_TABLES, window, events);
            CheckThread(t, owner, threadId).None? ==>
              Assembled(t, window, owner, threadId).outcome == Ok(Reference(Contents(Rows(t.messages, threadId)), window))
  {
    hide Assembled, Rows, Reference, CheckThread, RunEvents;
    EmptyCache(window);
    CacheAgreesWithReference(EMPTY_TABLES, window, events, owner, threadId);
  }

  /** Such runs have threads to speak of: any owner can open a workspace, a thread in it, and
      say something there, and then has that message for a context. */
  lemma NewStoreHoldsThreads(window: nat, owner: Text, title: Text, workspace: Id, threadId: Id, content: Text, id: Id)
    requires !Blank(owner) && !Blank(title) && !Blank(workspace) && !Blank(threadId) && !Blank(content) && window > 0
    ensures var t := RunEvents(EMPTY_TABLES, window,
                               [OpenWorkspace(owner, title, workspace), Open(owner, workspace, title, None, threadId),
                                Append(owner, threadId, "user", content, id)]);
            && CheckThread(t, owner, threadId).None?
            && Contents(Rows(t.messages, threadId)) == [Message(id, threadId, "user", content)]
            && Assembled(t, window, owner, threadId).outcome ==
               Ok(Context([], WindowLine(Message(id, threadId, "user", content))))
  {
    hide Strip, Blank, WindowLine, Assembled, CheckThread;
    var first, second := OpenWorkspace(owner, title, workspace), Open(owner, workspace, title, None, threadId);
    var third := Append(owner, threadId, "user", content, id);
    var m := Message(id, threadId, "user", content);
    var t1 := After(EMPTY_TABLES, window, first);
    var t2 := After(t1, window, second);
    var t3 := After(t2, window, third);
    assert [first, second, third][1..] == [second, third] && [second, third][1..] == [third] && [third][1..] == [];
    assert RunEvents(t2, window, [third]) == t3;
    assert RunEvents(t1, window, [second, third]) == t3;
    assert RunEvents(EMPTY_TABLES, window, [first, second, third]) == t3;
    assert t3.messages == [] + [m];
    RowsAppend([], m, threadId);
    assert Contents(Rows(t3.messages, threadId)) == [m];
    assert CheckThread(t3, owner, threadId).None? by {
      OwnerSees(t3, owner, threadId);
    }
    NewStoreAgrees(window, [first, second, third], owner, threadId);
    OneMessage(m, window);
  }

  lemma OwnerSees(t: Tables, owner: Text, threadId: Id)
    requires !Blank(owner) && !Blank(threadId) && Owned(t, Strip(owner), threadId)
    ensures CheckThread(t, owner, threadId).None?
  {
  }

  lemma OneMessage(m: Message, window: nat)
    requires window > 0
    ensures Reference([m], window) == Context([], WindowLine(m))
  {
    assert [m][0..] == [m];
  }

  /** The stored boundary of a thread never moves back. */
  lemma BoundaryNeverMovesBack(t: Tables, window: nat, e: Event, owner: Text, threadId: Id)
    requires CacheOk(t, window)
    ensures StoredCount(t, owner, threadId) <= StoredCount(After(t, window, e), owner, threadId)
  {
    hide Rows, CoveredCount, SummaryOf, Strip, Behind, Boundary, Blank, Newest, Render, Contents;
    match e
    case Append(o, th, role, content, newId) =>
      if Appended(t, o, th, role, content, newId).Ok? && StoredSummary(t, owner, threadId).Some? {
        CoverageGrows(t.messages, Message(newId, th, role, content), threadId, StoredSummary(t, owner, threadId).value.upTo);
      }
    case OpenWorkspace(_, _, _) =>
    case Open(_, _, _, _, _) =>
    case AssembleTurn(o, th) =>
      if (th, Strip(o)) == (threadId, Strip(owner)) && CheckThread(t, o, th).None? {
        SameCount(t, o, owner, threadId);
        SameCount(Assembled(t, window, o, th).tables, o, owner, threadId);
        AssembleSplits(t, window, o, th);
      }
    case Summarize(o, th) =>
      if (th, Strip(o)) == (threadId, Strip(owner)) && Summarized(t, window, o, th, None).Ok? {
        SummarizeLags(t, window, o, th, None);
        LagsAt(t, window, o, th);
        SameCount(t, o, owner, threadId);
        SameCount(Summarized(t, window, o, th, None).value, o, owner, threadId);
      }
  }

  lemma SameCount(t: Tables, o: Text, owner: Text, threadId: Id)
    requires Strip(o) == Strip(owner)
    ensures StoredCount(t, o, threadId) == StoredCount(t, owner, threadId)
  {
  }

  /** Summaries for explicit boundaries do no harm either, as long as the stored boundary has
      not passed the start of the window: over any faithful store the context is the reference. */
  lemma AgreesWhileBoundaryLags(t: Tables, window: nat, owner: Text, threadId: Id)
    requires Faithful(t) && CheckThread(t, owner, threadId).None?
    requires StoredCount(t, owner, threadId) <= Behind(|Rows(t.messages, threadId)|, window)
    ensures Assembled(t, window, owner, threadId).outcome == Ok(Reference(Contents(Rows(t.messages, threadId)), window))
  {
    hide Assembled, Rows, Split, Faithful, Strip;
    AssembleSplits(t, window, owner, threadId);
  }
}
