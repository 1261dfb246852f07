/** The butler's thread store: workspaces, threads, one append-only message table whose row
    numbers order all threads together, and one rolling summary per thread and owner. */
module ButlerThreads {
  import opened Wrappers
  import opened Utf8
  import opened Texts

  type Id = Text

  datatype Failure = Missing | Invalid | OutOfRange

  datatype Result<+T> = Ok(value: T) | Err(failure: Failure)

  datatype Thread = Thread(workspace: Id, owner: Text, parent: Option<Id>)

  datatype Message = Message(id: Id, threadId: Id, role: string, content: Text)

  datatype Numbered = Numbered(rowid: nat, message: Message)

  datatype Summary = Summary(content: Text, upTo: nat)

  /** The tables. The row number of a message is its position, counted from one. */
  datatype Tables = Tables(
    workspaces: map<Id, Text>,
    threads: map<Id, Thread>,
    messages: seq<Message>,
    summaries: map<(Id, Text), Summary>)

  predicate ValidRole(role: string) {
    role == "user" || role == "assistant" || role == "system"
  }

  // ---------------------------------------------------------------- rows

  /** The messages of one thread with their row numbers, oldest first. */
  function Rows(messages: seq<Message>, threadId: Id): seq<Numbered> {
    if messages == [] then []
    else
      var last := messages[|messages| - 1];
      Rows(messages[..|messages| - 1], threadId)
      + if last.threadId == threadId then [Numbered(|messages|, last)] else []
  }

  lemma RowsAppend(messages: seq<Message>, m: Message, threadId: Id)
    ensures Rows(messages + [m], threadId) ==
            Rows(messages, threadId) + if m.threadId == threadId then [Numbered(|messages| + 1, m)] else []
  {
    assert (messages + [m])[..|messages|] == messages;
  }

  predicate Ascending(rows: seq<Numbered>) {
    forall i, j | 0 <= i < j < |rows| :: rows[i].rowid < rows[j].rowid
  }

  predicate RowsOf(rows: seq<Numbered>, messages: seq<Message>, threadId: Id) {
    forall i | 0 <= i < |rows| ::
      && 1 <= rows[i].rowid <= |messages| && messages[rows[i].rowid - 1] == rows[i].message
      && rows[i].message.threadId == threadId
  }

  /** Row numbers ascend strictly, and are those of messages of the thread. */
  lemma {:induction false} RowsAscend(messages: seq<Message>, threadId: Id)
    ensures Ascending(Rows(messages, threadId)) && RowsOf(Rows(messages, threadId), messages, threadId)
  {
    if messages != [] {
      var init := messages[..|messages| - 1];
      RowsAscend(init, threadId);
      var rows, before := Rows(messages, threadId), Rows(init, threadId);
      forall i | 0 <= i < |rows|
        ensures 1 <= rows[i].rowid <= |messages| && messages[rows[i].rowid - 1] == rows[i].message
        ensures rows[i].message.threadId == threadId
      {
        if i < |before| {
          assert rows[i] == before[i];
          assert init[before[i].rowid - 1] == before[i].message;
        }
      }
      forall i, j | 0 <= i < j < |rows| ensures rows[i].rowid < rows[j].rowid {
        assert rows[i] == before[i];
      }
    }
  }

  /** Every message of the thread has its row. */
  lemma {:induction false} RowsComplete(messages: seq<Message>, threadId: Id, rowid: nat)
    requires 1 <= rowid <= |messages| && messages[rowid - 1].threadId == threadId
    ensures exists i | 0 <= i < |Rows(messages, threadId)| :: Rows(messages, threadId)[i].rowid == rowid
  {
    var init := messages[..|messages| - 1];
    if rowid < |messages| {
      RowsComplete(init, threadId, rowid);
      var i :| 0 <= i < |Rows(init, threadId)| && Rows(init, threadId)[i].rowid == rowid;
      assert Rows(messages, threadId)[i] == Rows(init, threadId)[i];
    } else {
      var rows := Rows(messages, threadId);
      assert rows[|rows| - 1].rowid == rowid;
    }
  }

  function Contents(rows: seq<Numbered>): (ms: seq<Message>)
    ensures |ms| == |rows| && forall i | 0 <= i < |rows| :: ms[i] == rows[i].message
  {
    seq(|rows|, i requires 0 <= i < |rows| => rows[i].message)
  }

  // ---------------------------------------------------------------- store operations

  predicate Owned(t: Tables, owner: Text, threadId: Id) {
    threadId in t.threads && t.threads[threadId].owner == owner
  }

  /** The checks every thread operation makes first. */
  function CheckThread(t: Tables, owner: Text, threadId: Id): Option<Failure> {
    if Blank(owner) || Blank(threadId) then Some(Invalid)
    else if Owned(t, Strip(owner), threadId) then None
    else Some(Missing)
  }

  function CreatedWorkspace(t: Tables, owner: Text, title: Text, newId: Id): Result<Tables> {
    if Blank(owner) || Blank(title) || newId in t.workspaces then Err(Invalid)
    else Ok(t.(workspaces := t.workspaces[newId := Strip(owner)]))
  }

  function CreatedThread(t: Tables, owner: Text, workspace: Id, title: Text, parent: Option<Id>, newId: Id): Result<Tables> {
    if Blank(owner) || Blank(title) || Blank(workspace) then Err(Invalid)
    else if workspace !in t.workspaces || t.workspaces[workspace] != Strip(owner) then Err(Missing)
    else if parent.Some? && Blank(parent.value) then Err(Invalid)
    else if parent.Some? && !Owned(t, Strip(owner), parent.value) then Err(Missing)
    else if parent.Some? && t.threads[parent.value].workspace != workspace then Err(Invalid)
    else if newId in t.threads then Err(Invalid)
    else Ok(t.(threads := t.threads[newId := Thread(workspace, Strip(owner), parent)]))
  }

  function Appended(t: Tables, owner: Text, threadId: Id, role: string, content: Text, newId: Id): Result<Tables> {
    if Blank(owner) || Blank(threadId) || !ValidRole(role) || Blank(content) then Err(Invalid)
    else if !Owned(t, Strip(owner), threadId) then Err(Missing)
    else Ok(t.(messages := t.messages + [Message(newId, threadId, role, content)]))
  }

  function ListedRows(t: Tables, owner: Text, threadId: Id): Result<seq<Numbered>> {
    match CheckThread(t, owner, threadId)
    case Some(failure) => Err(failure)
    case None => Ok(Rows(t.messages, threadId))
  }

  function StoredSummary(t: Tables, owner: Text, threadId: Id): Option<Summary> {
    if (threadId, Strip(owner)) in t.summaries then Some(t.summaries[(threadId, Strip(owner))]) else None
  }

  function SummarySet(t: Tables, owner: Text, threadId: Id, content: Text, upTo: int): Result<Tables> {
    if Blank(owner) || Blank(threadId) || Blank(content) || upTo < 1 then Err(Invalid)
    else if !Owned(t, Strip(owner), threadId) then Err(Missing)
    else if upTo > |t.messages| || t.messages[upTo - 1].threadId != threadId then Err(Invalid)
    else Ok(t.(summaries := t.summaries[(threadId, Strip(owner)) := Summary(content, upTo)]))
  }

  /** DELETE of a key's summary, then INSERT of the new one. */
  function Replaced(summaries: map<(Id, Text), Summary>, key: (Id, Text), s: Summary): (r: map<(Id, Text), Summary>)
    ensures r == summaries[key := s]
  {
    (summaries - {key})[key := s]
  }

  /** Messages belong to threads that exist; summaries to a thread and its owner. */
  ghost predicate TablesOk(t: Tables) {
    && (forall i | 0 <= i < |t.messages| :: t.messages[i].threadId in t.threads)
    && (forall k | k in t.summaries ::
          && Owned(t, k.1, k.0) && 1 <= t.summaries[k].upTo <= |t.messages|
          && t.messages[t.summaries[k].upTo - 1].threadId == k.0)
  }

  class ThreadStore {
    var tables: Tables

    constructor ()
      ensures tables == Tables(map[], map[], [], map[]) && TablesOk(tables)
    {
      tables := Tables(map[], map[], [], map[]);
    }

    method CreateWorkspace(owner: Text, title: Text, newId: Id) returns (ok: bool)
      requires TablesOk(tables)
      modifies this
      ensures TablesOk(tables)
      ensures ok == CreatedWorkspace(old(tables), owner, title, newId).Ok?
      ensures tables == if ok then CreatedWorkspace(old(tables), owner, title, newId).value else old(tables)
    {
      if Blank(owner) || Blank(title) || newId in tables.workspaces {
        return false;
      }
      tables := tables.(workspaces := tables.workspaces[newId := Strip(owner)]);
      return true;
    }

    method CreateThread(owner: Text, workspace: Id, title: Text, parent: Option<Id>, newId: Id) returns (r: Result<()>)
      requires TablesOk(tables)
      modifies this
      ensures TablesOk(tables)
      ensures var created := CreatedThread(old(tables), owner, workspace, title, parent, newId);
              if created.Ok? then r == Ok(()) && tables == created.value && Rows(tables.messages, newId) == []
              else r == Err(created.failure) && tables == old(tables)
    {
      hide Blank, Strip;
      if Blank(owner) || Blank(title) || Blank(workspace) {
        return Err(Invalid);
      }
      var cleanOwner := Strip(owner);
      if workspace !in tables.workspaces || tables.workspaces[workspace] != cleanOwner {
        return Err(Missing);
      }
      if parent.Some? {
        if Blank(parent.value) {
          return Err(Invalid);
        }
        if !Owned(tables, cleanOwner, parent.value) {
          return Err(Missing);
        }
        if tables.threads[parent.value].workspace != workspace {
          return Err(Invalid);
        }
      }
      if newId in tables.threads {
        return Err(Invalid);
      }
      StartsEmpty(tables.messages, tables.threads, newId);
      tables := tables.(threads := tables.threads[newId := Thread(workspace, cleanOwner, parent)]);
      return Ok(());
    }

    /** A new thread, branched or not, starts with no messages. */
    static lemma {:induction false} StartsEmpty(messages: seq<Message>, threads: map<Id, Thread>, newId: Id)
      requires newId !in threads && forall i | 0 <= i < |messages| :: messages[i].threadId in threads
      ensures Rows(messages, newId) == []
    {
      if messages != [] {
        StartsEmpty(messages[..|messages| - 1], threads, newId);
      }
    }

    method AppendMessage(owner: Text, threadId: Id, role: string, content: Text, newId: Id) returns (r: Result<Message>)
      requires TablesOk(tables)
      modifies this
      ensures TablesOk(tables)
      ensures var appended := Appended(old(tables), owner, threadId, role, content, newId);
              if appended.Ok? then r.Ok? && tables == appended.value else r == Err(appended.failure) && tables == old(tables)
    {
      if Blank(owner) || Blank(threadId) || !ValidRole(role) || Blank(content) {
        return Err(Invalid);
      }
      if !Owned(tables, Strip(owner), threadId) {
        return Err(Missing);
      }
      var message := Message(newId, threadId, role, content);
      tables := tables.(messages := tables.messages + [message]);
      return Ok(message);
    }

    method ListMessageRows(owner: Text, threadId: Id) returns (r: Result<seq<Numbered>>)
      ensures r == ListedRows(tables, owner, threadId)
    {
      var failure := CheckThread(tables, owner, threadId);
      if failure.Some? {
        return Err(failure.value);
      }
      var rows: seq<Numbered> := [];
      for i := 0 to |tables.messages|
        invariant rows == Rows(tables.messages[..i], threadId)
      {
        assert tables.messages[..i + 1] == tables.messages[..i] + [tables.messages[i]];
        RowsAppend(tables.messages[..i], tables.messages[i], threadId);
        if tables.messages[i].threadId == threadId {
          rows := rows + [Numbered(i + 1, tables.messages[i])];
        }
      }
      assert tables.messages[..|tables.messages|] == tables.messages;
      return Ok(rows);
    }

    method GetSummary(owner: Text, threadId: Id) returns (r: Result<Option<Summary>>)
      ensures match CheckThread(tables, owner, threadId)
              case Some(failure) => r == Err(failure)
              case None => r == Ok(StoredSummary(tables, owner, threadId))
    {
      var failure := CheckThread(tables, owner, threadId);
      if failure.Some? {
        return Err(failure.value);
      }
      return Ok(StoredSummary(tables, owner, threadId));
    }

    method SetSummary(owner: Text, threadId: Id, content: Text, upTo: int) returns (r: Result<Summary>)
      requires TablesOk(tables)
      modifies this
      ensures TablesOk(tables)
      ensures var saved := SummarySet(old(tables), owner, threadId, content, upTo);
              if saved.Ok? then upTo >= 1 && r == Ok(Summary(content, upTo)) && tables == saved.value
              else r == Err(saved.failure) && tables == old(tables)
    {
      hide Blank, Strip;
      if Blank(owner) || Blank(threadId) || Blank(content) || upTo < 1 {
        return Err(Invalid);
      }
      if !Owned(tables, Strip(owner), threadId) {
        return Err(Missing);
      }
      if upTo > |tables.messages| || tables.messages[upTo - 1].threadId != threadId {
        return Err(Invalid);
      }
      var summary := Summary(content, upTo);
      tables := tables.(summaries := Replaced(tables.summaries, (threadId, Strip(owner)), summary));
      return Ok(summary);
    }
  }

  // ---------------------------------------------------------------- who may do what

  /** A named owner's own, named thread. */
  predicate Theirs(t: Tables, owner: Text, threadId: Id) {
    Strip(owner) != [] && Strip(threadId) != [] && threadId in t.threads && t.threads[threadId].owner == Strip(owner)
  }

  /** A message is appended exactly for the owner of the thread, under one of three roles, with
      content; it is the thread's newest and no other thread's. */
  lemma AppendMeans(t: Tables, owner: Text, threadId: Id, role: string, content: Text, newId: Id, other: Id)
    ensures var r := Appended(t, owner, threadId, role, content, newId);
            && (r.Ok? <==> Theirs(t, owner, threadId) && role in ["user", "assistant", "system"] && Strip(content) != [])
            && (r.Ok? ==>
                  && r.value == t.(messages := r.value.messages)
                  && Rows(r.value.messages, other) ==
                     if other == threadId
                     then Rows(t.messages, other) + [Numbered(|t.messages| + 1, Message(newId, threadId, role, content))]
                     else Rows(t.messages, other))
  {
    hide Strip, Rows;
    RowsAppend(t.messages, Message(newId, threadId, role, content), other);
  }

  /** A thread is created exactly by the owner of its workspace, under a new id, with a title, below
      no thread or one of the same owner and workspace. */
  lemma CreateMeans(t: Tables, owner: Text, workspace: Id, title: Text, parent: Option<Id>, newId: Id)
    ensures var r := CreatedThread(t, owner, workspace, title, parent, newId);
            && (r.Ok? <==>
                  && Strip(owner) != [] && Strip(title) != [] && Strip(workspace) != [] && newId !in t.threads
                  && workspace in t.workspaces && t.workspaces[workspace] == Strip(owner)
                  && (parent.Some? ==> Theirs(t, owner, parent.value) && t.threads[parent.value].workspace == workspace))
            && (r.Ok? ==> r.value == Tables(t.workspaces, t.threads[newId := Thread(workspace, Strip(owner), parent)], t.messages, t.summaries))
  {
    hide Strip;
  }

  /** A summary is stored exactly for the owner of the thread, with content, up to a message of that
      thread; it replaces the owner's summary of that thread and no other. Reading tells others
      nothing. */
  lemma SummaryMeans(t: Tables, owner: Text, threadId: Id, content: Text, upTo: int)
    ensures var r := SummarySet(t, owner, threadId, content, upTo);
            && (r.Ok? <==>
                  && Theirs(t, owner, threadId) && Strip(content) != []
                  && 1 <= upTo <= |t.messages| && t.messages[upTo - 1].threadId == threadId)
            && (r.Ok? ==> r.value == t.(summaries := t.summaries[(threadId, Strip(owner)) := Summary(content, upTo)]))
    ensures ListedRows(t, owner, threadId).Ok? <==> Theirs(t, owner, threadId)
    ensures ListedRows(t, owner, threadId) == Err(Invalid) <==> Strip(owner) == [] || Strip(threadId) == []
  {
    hide Strip, Rows;
  }
}
