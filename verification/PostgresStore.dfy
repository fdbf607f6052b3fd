/** The Postgres store as its methods are written: statements in sequence, transactions that buffer their writes
    until commit, and loops over result rows. One client at a time; `Interleaving` has many. */
module Postgres {
  import opened StoreTypes
  import opened Permutations
  import opened Tables
  import opened RelationalSpec

  class PostgresStore {
    var db: Database  // the committed tables

    constructor ()
      ensures db == NoRows
    {
      db := NoRows;
    }

    method CreateConversation(sub: Subject, title: string, now: Time, mint: Mint) returns (r: Reply)
      modifies this
      ensures Steps(old(db), Call(sub, Op.CreateConversation(title), now, mint), db, r)
    {
      if sub == "" {
        return Failed(Forbidden);
      }
      var id := mint(0);
      var exec := InsertConversation(db, Conversation(id, sub, title, now, now));
      match exec {
        case Raised(err) => return Failed(MapPgErr(err));
        case Done(_, _) =>
      }
      db := exec.db;
      r := OneConversation(Conversation(id, sub, title, now, now));
    }

    method ListConversations(sub: Subject, ghost now: Time, ghost mint: Mint) returns (r: Reply)
      ensures Steps(db, Call(sub, Op.ListConversations, now, mint), db, r)
    {
      if sub == "" {
        return Failed(Forbidden);
      }
      var rows := OrderBy(Owned(db.conversations, sub), (c: Conversation) => -c.updatedAt);
      var out := ReadRows(rows);
      r := Conversations(out);
    }

    method GetConversation(sub: Subject, id: Id, ghost now: Time, ghost mint: Mint) returns (r: Reply)
      ensures Steps(db, Call(sub, Op.GetConversation(id), now, mint), db, r)
      ensures r == GetStep(db, sub, id)
    {
      if !OwnsRow(db, sub, id) {
        return Failed(NotFound);
      }
      r := OneConversation(db.conversations[id]);
    }

    method RenameConversation(sub: Subject, id: Id, title: string, now: Time, ghost mint: Mint) returns (r: Reply)
      modifies this
      ensures Steps(old(db), Call(sub, Op.RenameConversation(id, title), now, mint), db, r)
    {
      var exec := UpdateTitle(db, id, sub, title, now);
      match exec {
        case Raised(err) => return Failed(MapPgErr(err));
        case Done(_, _) =>
      }
      db := exec.db;
      if exec.affected == 0 {
        return Failed(NotFound);
      }
      r := GetConversation(sub, id, now, mint);
    }

    method DeleteConversation(sub: Subject, id: Id, ghost now: Time, ghost mint: Mint) returns (r: Reply)
      modifies this
      ensures Steps(old(db), Call(sub, Op.DeleteConversation(id), now, mint), db, r)
    {
      var exec := DeleteRow(db, id, sub);
      match exec {
        case Raised(err) => return Failed(MapPgErr(err));
        case Done(_, _) =>
      }
      db := exec.db;
      r := if exec.affected == 0 then Failed(NotFound) else Deleted;
    }

    method AppendMessage(sub: Subject, convId: Id, role: string, content: string, now: Time, mint: Mint) returns (r: Reply)
      modifies this
      ensures Steps(old(db), Call(sub, Op.AppendMessage(convId, role, content), now, mint), db, r)
    {
      var tx := db;
      var owned := OwnsRow(tx, sub, convId);
      if !owned {
        return Failed(NotFound);
      }
      var id := mint(0);
      var exec := InsertMessage(tx, id, MessageRow(convId, sub, role, content, now));
      match exec {
        case Raised(err) => return Failed(MapPgErr(err));
        case Done(_, _) =>
      }
      tx := exec.db;
      exec := TouchConversation(tx, convId, now);
      match exec {
        case Raised(err) => return Failed(MapPgErr(err));
        case Done(_, _) =>
      }
      tx := exec.db;
      db := tx;
      r := OneMessage(Message(id, convId, role, content, now));
    }

    method ListMessages(sub: Subject, convId: Id, ghost now: Time, ghost mint: Mint) returns (r: Reply)
      ensures Steps(db, Call(sub, Op.ListMessages(convId), now, mint), db, r)
    {
      var owned := OwnsRow(db, sub, convId);
      if !owned {
        return Failed(NotFound);
      }
      var rows := SelectMessages(db, convId, sub, None);
      var out := ReadRows(rows);
      r := Messages(out);
    }

    method UpsertFeedback(sub: Subject, msgId: Id, rating: string, comment: string, now: Time, ghost mint: Mint) returns (r: Reply)
      modifies this
      ensures Steps(old(db), Call(sub, Op.UpsertFeedback(msgId, rating, comment), now, mint), db, r)
    {
      if rating != "good" && rating != "bad" {
        return Failed(InvalidRating);
      }
      var owned := OwnsMessage(db, sub, msgId);
      if !owned {
        return Failed(NotFound);
      }
      var exec := UpsertRow(db, Feedback(msgId, sub, rating, comment, now));
      match exec {
        case Raised(err) => return Failed(MapPgErr(err));
        case Done(_, _) =>
      }
      db := exec.db;
      r := OneFeedback(Feedback(msgId, sub, rating, comment, now));
    }

    method GetFeedback(sub: Subject, msgId: Id, ghost now: Time, ghost mint: Mint) returns (r: Reply)
      ensures Steps(db, Call(sub, Op.GetFeedback(msgId), now, mint), db, r)
    {
      var key := FeedbackKey(sub, msgId);
      if key !in db.feedback {
        return Failed(NotFound);
      }
      r := OneFeedback(db.feedback[key]);
    }

    method BranchFromMessage(sub: Subject, msgId: Id, title: string, now: Time, mint: Mint) returns (r: Reply)
      modifies this
      ensures Steps(old(db), Call(sub, Op.BranchFromMessage(msgId, title), now, mint), db, r)
    {
      ghost var e := Call(sub, Op.BranchFromMessage(msgId, title), now, mint);
      if sub == "" {
        return Failed(Forbidden);
      }
      var tx := db;
      if !JoinsSource(tx, sub, msgId) {
        return Failed(NotFound);
      }
      var srcConvId, srcCreated := tx.messages[msgId].conversationId, tx.messages[msgId].createdAt;
      var srcTitle := tx.conversations[srcConvId].title;
      var newTitle := title;
      if newTitle == "" {
        newTitle := srcTitle + " (branch)";
      }
      var dst := Conversation(mint(0), sub, newTitle, now, now);
      assert dst == BranchRow(db, e);
      var exec := InsertConversation(tx, dst);
      match exec {
        case Raised(err) => return Failed(MapPgErr(err));
        case Done(_, _) =>
      }
      tx := exec.db;
      var rows := SelectMessages(tx, srcConvId, sub, Some(srcCreated));
      SelectedIgnoresRows(db, tx, srcConvId, sub, Some(srcCreated));
      assert CopyQuery(db, e, rows);
      var copied := ReadTurns(rows);
      exec := InsertTurns(tx, dst, copied, mint, rows);
      if exec.Raised? {
        assert Outcome(db, Failed(MapPgErr(exec.error))) == BranchStep(db, e, rows);
        return Failed(MapPgErr(exec.error));
      }
      tx := exec.db;
      assert Outcome(tx, OneConversation(dst)) == BranchStep(db, e, rows);
      db := tx;
      r := OneConversation(dst);
    }
  }

  /** The insert loop of a branch, which keeps only role and content of each row it read. */
  method InsertTurns(start: Database, dst: Conversation, copied: seq<Turn>, mint: Mint, ghost rows: seq<Message>) returns (exec: Exec)
    requires copied == Turns(rows)
    ensures exec == InsertCopies(start, dst, rows, mint, |rows|)
  {
    var tx := start;
    for i := 0 to |copied|
      invariant InsertCopies(start, dst, rows, mint, i) == Done(tx, i)
    {
      var row := MessageRow(dst.id, dst.sub, copied[i].role, copied[i].content, dst.createdAt);
      var step := InsertMessage(tx, mint(i + 1), row);
      assert row == CopyRow(dst, rows[i]);
      if step.Raised? {
        RaiseStays(start, dst, rows, mint, i + 1, |rows|);
        return step;
      }
      tx := step.db;
    }
    exec := Done(tx, |copied|);
  }

  /** An insert that raises ends the loop with that error. */
  lemma {:induction false} RaiseStays(d: Database, head: Conversation, ms: seq<Message>, mint: Mint, i: nat, n: nat)
    requires i <= n <= |ms| && InsertCopies(d, head, ms, mint, i).Raised?
    ensures InsertCopies(d, head, ms, mint, n) == InsertCopies(d, head, ms, mint, i)
    decreases n
  {
    if i < n {
      RaiseStays(d, head, ms, mint, i, n - 1);
    }
  }

  /** The ordered message query. */
  method SelectMessages(db: Database, c: Id, sub: Subject, until: Option<Time>) returns (rows: seq<Message>)
    ensures IsResult(db, c, sub, until, rows)
  {
    rows := OrderBy(Selected(db, c, sub, until), (m: Message) => m.createdAt);
  }

  /** The row loop of a query: `rows.Next`, `rows.Scan`, append. */
  method ReadRows<T>(rows: seq<T>) returns (out: seq<T>)
    ensures out == rows
  {
    out := [];
    for i := 0 to |rows|
      invariant out == rows[..i]
    {
      out := out + [rows[i]];
    }
  }

  method ReadTurns(rows: seq<Message>) returns (out: seq<Turn>)
    ensures out == Turns(rows)
  {
    out := [];
    for i := 0 to |rows|
      invariant |out| == i && forall k :: 0 <= k < i ==> out[k] == TurnOf(rows[k])
    {
      out := out + [Turn(rows[i].role, rows[i].content)];
    }
  }

  /** ORDER BY: ascending keys, equal keys in any order. */
  method OrderBy<T(==)>(s: set<T>, key: T -> int) returns (xs: seq<T>)
    ensures Enumerates(xs, s)
    ensures forall i, j :: 0 <= i < j < |xs| ==> key(xs[i]) <= key(xs[j])
  {
    xs := [];
    var rest := s;
    while rest != {}
      invariant rest <= s && Enumerates(xs, s - rest)
      invariant forall i, j :: 0 <= i < j < |xs| ==> key(xs[i]) <= key(xs[j])
      invariant forall i, y :: 0 <= i < |xs| && y in rest ==> key(xs[i]) <= key(y)
    {
      LeastExists(rest, key);
      var x :| x in rest && forall y :: y in rest ==> key(x) <= key(y);
      EnumeratesSnoc(xs, s - rest, x);
      xs, rest := xs + [x], rest - {x};
      assert s - rest == (s - rest - {x}) + {x};
    }
    assert s - rest == s;
  }
}
