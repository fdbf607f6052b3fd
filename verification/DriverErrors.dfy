/** What becomes of errors the database raises: the mapping of driver errors, and calls that draw an identifier already
    stored. */
module DriverErrors {
  import opened StoreTypes
  import opened Tables
  import opened RelationalSpec

  ghost predicate OccursIn(text: string, part: string) {
    exists before: string, after: string :: text == before + part + after
  }

  lemma {:induction false} ContainsIff(text: string, part: string)
    ensures Contains(text, part) <==> OccursIn(text, part)
  {
    if part <= text {
      assert text == "" + part + text[|part|..];
    } else if text != "" {
      ContainsIff(text[1..], part);
      if OccursIn(text[1..], part) {
        var before: string, after: string :| text[1..] == before + part + after;
        assert text == ([text[0]] + before) + part + after;
      }
      if before: string, after: string :| text == before + part + after && before != "" {
        assert text[1..] == before[1..] + part + after;
      }
    }
  }

  /** A unique violation is a conflict, a foreign key violation or a text that says "no rows" is a missing row, and
      anything else is internal. */
  lemma Mapping(err: DriverError)
    ensures MapPgErr(err) ==
      if err.PgError? && err.code == "23505" then Conflict
      else if err.PgError? && err.code == "23503" then NotFound
      else if OccursIn(err.text, "no rows") then NotFound
      else Internal
  {
    hide Contains, OccursIn;
    ContainsIff(err.text, "no rows");
  }

  lemma Raises(d: Database)
    ensures MapPgErr(Duplicate().error) == Conflict && MapPgErr(Orphan().error) == NotFound
  {
    hide Contains;
  }

  /** A create under an identifier already stored is a conflict and changes nothing. */
  lemma CreateCollides(d: Database, e: Call, d': Database, r: Reply)
    requires e.op.CreateConversation? && e.sub != "" && Steps(d, e, d', r)
    ensures r == Failed(Conflict) <==> e.mint(0) in d.conversations
    ensures e.mint(0) in d.conversations ==> d' == d
  {
    hide Contains, IsListing, BranchSteps, IsResult, RenameStep, DeleteStep, AppendStep, UpsertStep;
  }

  /** So is an append to an owned conversation, which is rolled back. */
  lemma AppendCollides(d: Database, e: Call, d': Database, r: Reply)
    requires e.op.AppendMessage? && Steps(d, e, d', r) && OwnsRow(d, e.sub, e.op.conversationId)
    ensures r == Failed(Conflict) <==> e.mint(0) in d.messages
    ensures e.mint(0) in d.messages ==> d' == d
  {
    hide Contains, IsListing, BranchSteps, IsResult, CreateStep, RenameStep, DeleteStep, UpsertStep;
  }

  ghost predicate Repeats(d: Database, e: Call, n: nat) {
    exists k: nat :: 1 <= k <= n && (e.mint(k) in d.messages || exists j: nat :: 1 <= j < k && e.mint(j) == e.mint(k))
  }

  /** The insert loop raises exactly when one of its identifiers is stored or drawn twice. */
  lemma {:induction false} CopiesCollide(d: Database, e: Call, head: Conversation, ms: seq<Message>, n: nat)
    requires n <= |ms| && head.id in d.conversations
    ensures match InsertCopies(d, head, ms, e.mint, n)
      case Raised(err) => Repeats(d, e, n) && MapPgErr(err) == Conflict
      case Done(d', _) =>
        && !Repeats(d, e, n) && d'.conversations == d.conversations
        && forall x :: x in d'.messages <==> x in d.messages || exists k: nat :: 1 <= k <= n && e.mint(k) == x
  {
    hide MapPgErr;
    if n > 0 {
      CopiesCollide(d, e, head, ms, n - 1);
      Raises(d);
    }
  }

  /** A branch draws one identifier for its conversation and one for each row it copies: it is a conflict, rolled back, if and
      only if one of them is stored or drawn twice. */
  lemma BranchCollides(d: Database, e: Call, ms: seq<Message>)
    requires e.op.BranchFromMessage? && JoinsSource(d, e.sub, e.op.messageId)
    ensures var o := BranchStep(d, e, ms);
      if e.mint(0) in d.conversations || Repeats(d, e, |ms|) then o == Outcome(d, Failed(Conflict))
      else o.reply == OneConversation(BranchRow(d, e))
  {
    hide MapPgErr, Repeats, InsertCopies, DefaultTitle;
    Raises(d);
    var head := BranchRow(d, e);
    CopiesCollide(d.(conversations := d.conversations[head.id := head]), e, head, ms, |ms|);
    SameRepeats(d, d.(conversations := d.conversations[head.id := head]), e, |ms|);
  }

  lemma SameRepeats(d: Database, d1: Database, e: Call, n: nat)
    requires d1.messages == d.messages
    ensures Repeats(d1, e, n) <==> Repeats(d, e, n)
  {
  }
}
