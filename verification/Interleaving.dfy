/** The Postgres store under concurrency: any number of clients, each one method call, taking turns statement by
    statement. A statement reads the committed tables of its moment (read committed); the writes of an open
    transaction stay with the client until commit; an inserted message holds a key-share lock on its conversation
    row until commit, and an updated row is locked until commit. */
module Interleaving {
  import opened StoreTypes
  import opened Tables
  import opened RelationalSpec

  /** Where a client stands between two of its statements, with what its open transaction has read and buffered. */
  datatype Pc =
    | Ready
    | AppendChecked
    | AppendInserted
    | AppendTouched
    | ListChecked
    | UpsertChecked
    | RenameUpdated
    | BranchResolved(src: Id, srcTitle: string, cut: Time)
    | BranchInserted(head: Conversation, src: Id, cut: Time)
    | BranchCopying(head: Conversation, graft: Graft, done: nat)
    | Finished(reply: Reply)
    | Unheard(reply: Reply)  // finished, but the connection was lost before the reply arrived

  /** What the copy query of a branch returned, and from which committed tables. */
  datatype Graft = Graft(snapshot: Database, src: Id, cut: Time, copied: seq<Message>)

  /** The committed tables and the clients. The last three fields are history, which no step reads: the subject of
      every conversation and of every message ever committed, and the rows of every branch ever committed. */
  datatype Machine = Machine(
    db: Database,
    pcs: seq<Pc>,
    owners: map<Id, Subject>,
    authors: map<Id, Subject>,
    branches: map<Id, map<Id, MessageRow>>)

  /** The call has made its last statement or lost its connection. */
  predicate Over(pc: Pc) {
    pc.Finished? || pc.Unheard?
  }

  ghost predicate Init(reqs: seq<Call>, m: Machine) {
    && m.db == NoRows && m.owners == map[] && m.authors == map[] && m.branches == map[]
    && |m.pcs| == |reqs| && forall i :: 0 <= i < |m.pcs| ==> m.pcs[i] == Ready
  }

  /** A statement that commits nothing. */
  function Move(m: Machine, i: nat, pc: Pc): Machine
    requires i < |m.pcs|
  {
    m.(pcs := m.pcs[i := pc])
  }

  /** A statement or commit after which the committed tables are `db`. */
  function Settle(m: Machine, i: nat, db: Database, pc: Pc): (m': Machine)
    requires i < |m.pcs|
    ensures m'.db == db && m'.pcs == m.pcs[i := pc] && m'.branches == m.branches
    ensures m.owners.Keys <= m'.owners.Keys
  {
    m.(db := db, pcs := m.pcs[i := pc],
       owners := m.owners + (map c | c in db.conversations :: db.conversations[c].sub),
       authors := m.authors + (map x | x in db.messages :: db.messages[x].sub))
  }

  /** Client j's open transaction has inserted a message into conversation c. */
  predicate SharesKey(reqs: seq<Call>, m: Machine, j: nat, c: Id)
    requires j < |m.pcs| == |reqs|
  {
    (m.pcs[j].AppendInserted? || m.pcs[j].AppendTouched?)
    && reqs[j].op.AppendMessage? && reqs[j].op.conversationId == c
  }

  /** Client j's open transaction has updated the row of conversation c. */
  predicate LocksRow(reqs: seq<Call>, m: Machine, j: nat, c: Id)
    requires j < |m.pcs| == |reqs|
  {
    m.pcs[j].AppendTouched? && reqs[j].op.AppendMessage? && reqs[j].op.conversationId == c
  }

  ghost predicate NoKeyShared(reqs: seq<Call>, m: Machine, c: Id)
    requires |m.pcs| == |reqs|
  {
    forall j :: 0 <= j < |reqs| ==> !SharesKey(reqs, m, j, c)
  }

  ghost predicate NoRowLocked(reqs: seq<Call>, m: Machine, c: Id)
    requires |m.pcs| == |reqs|
  {
    forall j :: 0 <= j < |reqs| ==> !LocksRow(reqs, m, j, c)
  }

  /** What the commit of an append makes visible. */
  function AppendCommit(db: Database, e: Call): Database
    requires e.op.AppendMessage? && e.op.conversationId in db.conversations
  {
    var c := e.op.conversationId;
    db.(messages := db.messages[e.mint(0) := AppendRow(e)],
        conversations := db.conversations[c := db.conversations[c].(updatedAt := e.now)])
  }

  /** The rows a branch has buffered for the messages it read. */
  function GraftRows(e: Call, head: Conversation, copied: seq<Message>): map<Id, MessageRow>
    requires forall k, l :: 1 <= k < l <= |copied| ==> e.mint(k) != e.mint(l)
  {
    map k | 1 <= k <= |copied| :: e.mint(k) := CopyRow(head, copied[k - 1])
  }

  function BranchCommit(db: Database, head: Conversation, rows: map<Id, MessageRow>): Database {
    db.(conversations := db.conversations[head.id := head], messages := db.messages + rows)
  }

  /** A statement that raises ends the call with the mapped error, and with it any open transaction. */
  function After(exec: Exec, next: Pc): Pc {
    match exec
    case Raised(err) => Finished(Failed(MapPgErr(err)))
    case Done(_, _) => next
  }

  /** Where the first statement leaves a call that it does not let write. */
  function FirstPc(d: Database, e: Call): Pc {
    match e.op
    case GetConversation(id) => Finished(GetStep(d, e.sub, id))
    case AppendMessage(c, _, _) => if OwnsRow(d, e.sub, c) then AppendChecked else Finished(Failed(NotFound))
    case ListMessages(c) => if OwnsRow(d, e.sub, c) then ListChecked else Finished(Failed(NotFound))
    case BranchFromMessage(x, _) =>
      if e.sub == "" then Finished(Failed(Forbidden))
      else if !JoinsSource(d, e.sub, x) then Finished(Failed(NotFound))
      else
        var src := d.messages[x].conversationId;
        BranchResolved(src, d.conversations[src].title, d.messages[x].createdAt)
    case UpsertFeedback(x, rating, _) =>
      if !ValidRating(rating) then Finished(Failed(InvalidRating))
      else if !OwnsMessage(d, e.sub, x) then Finished(Failed(NotFound))
      else UpsertChecked
    case GetFeedback(x) => Finished(FeedbackStep(d, e.sub, x))
    case _ => Finished(Failed(NotFound))
  }

  predicate BeginsCreate(m: Machine, i: nat, e: Call, m': Machine)
    requires i < |m.pcs| && e.op.CreateConversation?
  {
    var o := CreateStep(m.db, e);
    m' == Settle(m, i, o.db, Finished(o.reply))
  }

  ghost predicate BeginsListing(m: Machine, i: nat, e: Call, m': Machine)
    requires i < |m.pcs|
  {
    if e.sub == "" then m' == Move(m, i, Finished(Failed(Forbidden)))
    else exists cs :: IsListing(m.db.conversations, e.sub, cs) && m' == Move(m, i, Finished(Conversations(cs)))
  }

  ghost predicate BeginsRename(reqs: seq<Call>, m: Machine, i: nat, m': Machine)
    requires i < |reqs| == |m.pcs| && reqs[i].op.RenameConversation?
  {
    var e, id := reqs[i], reqs[i].op.id;
    if OwnsRow(m.db, e.sub, id)
    then NoRowLocked(reqs, m, id) && m' == Settle(m, i, UpdateTitle(m.db, id, e.sub, e.op.title, e.now).db, RenameUpdated)
    else m' == Move(m, i, Finished(Failed(NotFound)))
  }

  ghost predicate BeginsDelete(reqs: seq<Call>, m: Machine, i: nat, m': Machine)
    requires i < |reqs| == |m.pcs| && reqs[i].op.DeleteConversation?
  {
    var e, id := reqs[i], reqs[i].op.id;
    if OwnsRow(m.db, e.sub, id)
    then NoKeyShared(reqs, m, id) && m' == Settle(m, i, DeleteRow(m.db, id, e.sub).db, Finished(Deleted))
    else m' == Move(m, i, Finished(Failed(NotFound)))
  }

  /** The first statement of a call. */
  ghost predicate Begins(reqs: seq<Call>, m: Machine, i: nat, m': Machine)
    requires i < |reqs| == |m.pcs|
  {
    match reqs[i].op
    case CreateConversation(_) => BeginsCreate(m, i, reqs[i], m')
    case ListConversations => BeginsListing(m, i, reqs[i], m')
    case RenameConversation(_, _) => BeginsRename(reqs, m, i, m')
    case DeleteConversation(_) => BeginsDelete(reqs, m, i, m')
    case _ => m' == Move(m, i, FirstPc(m.db, reqs[i]))
  }

  predicate AppendInserts(m: Machine, i: nat, e: Call, m': Machine)
    requires i < |m.pcs|
  {
    e.op.AppendMessage? && m' == Move(m, i, After(InsertMessage(m.db, e.mint(0), AppendRow(e)), AppendInserted))
  }

  ghost predicate AppendTouches(reqs: seq<Call>, m: Machine, i: nat, m': Machine)
    requires i < |reqs| == |m.pcs|
  {
    reqs[i].op.AppendMessage? && NoRowLocked(reqs, m, reqs[i].op.conversationId) && m' == Move(m, i, AppendTouched)
  }

  predicate AppendCommits(m: Machine, i: nat, e: Call, m': Machine)
    requires i < |m.pcs|
  {
    e.op.AppendMessage? && e.op.conversationId in m.db.conversations
    && m' == Settle(m, i, AppendCommit(m.db, e), Finished(OneMessage(ToMessage(e.mint(0), AppendRow(e)))))
  }

  ghost predicate ListReads(m: Machine, i: nat, e: Call, m': Machine)
    requires i < |m.pcs|
  {
    e.op.ListMessages?
    && exists ms :: IsResult(m.db, e.op.conversationId, e.sub, None, ms) && m' == Move(m, i, Finished(Messages(ms)))
  }

  predicate UpsertWrites(m: Machine, i: nat, e: Call, m': Machine)
    requires i < |m.pcs|
  {
    && e.op.UpsertFeedback?
    && var exec := UpsertRow(m.db, NewFeedback(e));
       var pc := After(exec, Finished(OneFeedback(NewFeedback(e))));
       m' == if exec.Done? then Settle(m, i, exec.db, pc) else Move(m, i, pc)
  }

  predicate RenameReads(m: Machine, i: nat, e: Call, m': Machine)
    requires i < |m.pcs|
  {
    e.op.RenameConversation? && m' == Move(m, i, Finished(GetStep(m.db, e.sub, e.op.id)))
  }

  predicate BranchInserts(m: Machine, i: nat, e: Call, m': Machine)
    requires i < |m.pcs| && m.pcs[i].BranchResolved?
  {
    && e.op.BranchFromMessage?
    && var head := NewConversation(e, DefaultTitle(e.op.title, m.pcs[i].srcTitle));
       m' == Move(m, i, After(InsertConversation(m.db, head), BranchInserted(head, m.pcs[i].src, m.pcs[i].cut)))
  }

  ghost predicate BranchReads(m: Machine, i: nat, e: Call, m': Machine)
    requires i < |m.pcs| && m.pcs[i].BranchInserted?
  {
    var src, cut := m.pcs[i].src, m.pcs[i].cut;
    exists ms :: IsResult(m.db, src, e.sub, Some(cut), ms)
                 && m' == Move(m, i, BranchCopying(m.pcs[i].head, Graft(m.db, src, cut, ms), 0))
  }

  predicate BranchCopies(m: Machine, i: nat, e: Call, m': Machine)
    requires i < |m.pcs| && m.pcs[i].BranchCopying?
  {
    var k := m.pcs[i].done;
    m' == Move(m, i, if e.mint(k + 1) in m.db.messages then Finished(Failed(Conflict))
                     else BranchCopying(m.pcs[i].head, m.pcs[i].graft, k + 1))
  }

  ghost predicate BranchCommits(m: Machine, i: nat, e: Call, m': Machine)
    requires i < |m.pcs| && m.pcs[i].BranchCopying?
  {
    && Injective(e.mint)
    && var head, rows := m.pcs[i].head, GraftRows(e, m.pcs[i].head, m.pcs[i].graft.copied);
       m' == Settle(m, i, BranchCommit(m.db, head, rows), Finished(OneConversation(head))).(branches := m.branches[head.id := rows])
  }

  /** A later statement, or the commit, of a call under way. */
  ghost predicate Continues(reqs: seq<Call>, m: Machine, i: nat, m': Machine)
    requires i < |reqs| == |m.pcs|
  {
    match m.pcs[i]
    case AppendChecked => AppendInserts(m, i, reqs[i], m')
    case AppendInserted => AppendTouches(reqs, m, i, m')
    case AppendTouched => AppendCommits(m, i, reqs[i], m')
    case ListChecked => ListReads(m, i, reqs[i], m')
    case UpsertChecked => UpsertWrites(m, i, reqs[i], m')
    case RenameUpdated => RenameReads(m, i, reqs[i], m')
    case BranchResolved(_, _, _) => BranchInserts(m, i, reqs[i], m')
    case BranchInserted(_, _, _) => BranchReads(m, i, reqs[i], m')
    case BranchCopying(_, graft, done) =>
      if done < |graft.copied| then BranchCopies(m, i, reqs[i], m') else BranchCommits(m, i, reqs[i], m')
    case _ => false
  }

  /** The connection is lost before the next statement or commit takes effect: an open transaction leaves nothing
      behind. */
  ghost predicate Breaks(m: Machine, i: nat, m': Machine)
    requires i < |m.pcs|
  {
    m' == Move(m, i, Finished(Failed(Internal)))
  }

  ghost predicate Step(reqs: seq<Call>, m: Machine, i: nat, m': Machine) {
    && i < |reqs| == |m.pcs|
    && !Over(m.pcs[i])
    && (Breaks(m, i, m') || if m.pcs[i].Ready? then Begins(reqs, m, i, m') else Continues(reqs, m, i, m'))
  }

  /** The connection is lost after the last commit and before the reply arrives: the call has taken effect, and its
      caller gets an error. */
  ghost predicate Loses(m: Machine, i: nat, m': Machine) {
    && i < |m.pcs| && m.pcs[i].Finished? && m.pcs[i].reply != Failed(Internal)
    && m' == Move(m, i, Unheard(m.pcs[i].reply))
  }

  ghost predicate Happens(reqs: seq<Call>, m: Machine, i: nat, m': Machine) {
    Step(reqs, m, i, m') || (|m.pcs| == |reqs| && Loses(m, i, m'))
  }

  /** An execution: the states, and which client moved between them. */
  ghost predicate Execution(reqs: seq<Call>, ms: seq<Machine>, who: seq<nat>) {
    && |ms| == |who| + 1
    && Init(reqs, ms[0])
    && forall t :: 0 <= t < |who| ==> Happens(reqs, ms[t], who[t], ms[t + 1])
  }

  // --- What every statement has in common

  /** One client moves; it is past its first statement; no owner is forgotten; and the committed tables change only as a title is updated
      or as the call ends with a reply of its own. */
  ghost predicate Shape(m: Machine, i: nat, e: Call, m': Machine) {
    && i < |m.pcs| == |m'.pcs| && m'.pcs == m.pcs[i := m'.pcs[i]] && m.owners.Keys <= m'.owners.Keys
    && !m'.pcs[i].Ready? && !m'.pcs[i].Unheard?
    && (m'.pcs[i].RenameUpdated? ==> m.pcs[i].Ready? && e.op.RenameConversation?)
    && (m.pcs[i].RenameUpdated? || !(m'.pcs[i].RenameUpdated? || (m'.pcs[i].Finished? && m'.pcs[i].reply != Failed(Internal))) ==>
          m'.db == m.db)
  }

  predicate Midway(pc: Pc) {
    !pc.Ready? && !pc.Unheard? && !pc.RenameUpdated?
  }

  lemma MoveShape(m: Machine, i: nat, e: Call, pc: Pc)
    requires i < |m.pcs| && Midway(pc)
    ensures Shape(m, i, e, Move(m, i, pc))
  {
  }

  /** A statement that commits ends its call, but for the update of a rename. */
  lemma SettleShape(m: Machine, i: nat, e: Call, m': Machine, pc: Pc)
    requires i < |m.pcs| && m'.pcs == m.pcs[i := pc] && m.owners.Keys <= m'.owners.Keys && !m.pcs[i].RenameUpdated?
    requires (pc.RenameUpdated? && m.pcs[i].Ready? && e.op.RenameConversation?)
             || (pc.Finished? && (pc.reply == Failed(Internal) ==> m'.db == m.db))
    ensures Shape(m, i, e, m')
  {
  }

  lemma FirstPcMidway(d: Database, e: Call)
    ensures Midway(FirstPc(d, e))
  {
  }

  lemma BeginShape(reqs: seq<Call>, m: Machine, i: nat, m': Machine)
    requires i < |reqs| == |m.pcs| && m.pcs[i].Ready? && Begins(reqs, m, i, m')
    ensures Shape(m, i, reqs[i], m')
  {
    hide IsListing, NoRowLocked, NoKeyShared, FirstPc, Shape;
    var e := reqs[i];
    match e.op
    case CreateConversation(_) => SettleShape(m, i, e, m', m'.pcs[i]);
    case ListConversations => MoveShape(m, i, e, m'.pcs[i]);
    case RenameConversation(id, _) =>
      if OwnsRow(m.db, e.sub, id) {
        SettleShape(m, i, e, m', RenameUpdated);
      } else {
        MoveShape(m, i, e, Finished(Failed(NotFound)));
      }
    case DeleteConversation(id) =>
      if OwnsRow(m.db, e.sub, id) {
        SettleShape(m, i, e, m', Finished(Deleted));
      } else {
        MoveShape(m, i, e, Finished(Failed(NotFound)));
      }
    case _ =>
      FirstPcMidway(m.db, e);
      MoveShape(m, i, e, FirstPc(m.db, e));
  }

  lemma AppendShape(reqs: seq<Call>, m: Machine, i: nat, m': Machine)
    requires i < |reqs| == |m.pcs| && Continues(reqs, m, i, m')
    requires m.pcs[i].AppendChecked? || m.pcs[i].AppendInserted? || m.pcs[i].AppendTouched?
    ensures Shape(m, i, reqs[i], m')
  {
    hide NoRowLocked, AppendCommit, Shape;
    if m.pcs[i].AppendTouched? {
      SettleShape(m, i, reqs[i], m', m'.pcs[i]);
    } else {
      MoveShape(m, i, reqs[i], m'.pcs[i]);
    }
  }

  lemma BranchShape(m: Machine, i: nat, e: Call, m': Machine)
    requires i < |m.pcs|
    requires match m.pcs[i]
      case BranchResolved(_, _, _) => BranchInserts(m, i, e, m')
      case BranchInserted(_, _, _) => BranchReads(m, i, e, m')
      case BranchCopying(_, _, _) => BranchCopies(m, i, e, m') || BranchCommits(m, i, e, m')
      case _ => false
    ensures Shape(m, i, e, m')
  {
    hide IsResult, BranchCommit, GraftRows, Injective, Shape;
    if m.pcs[i].BranchCopying? && BranchCommits(m, i, e, m') {
      SettleShape(m, i, e, m', Finished(OneConversation(m.pcs[i].head)));
    } else {
      MoveShape(m, i, e, m'.pcs[i]);
    }
  }

  lemma OtherShape(reqs: seq<Call>, m: Machine, i: nat, m': Machine)
    requires i < |reqs| == |m.pcs| && Continues(reqs, m, i, m')
    requires m.pcs[i].ListChecked? || m.pcs[i].UpsertChecked? || m.pcs[i].RenameUpdated?
    ensures Shape(m, i, reqs[i], m')
  {
    hide IsResult, GetStep, Shape;
    if m.pcs[i].UpsertChecked? && UpsertRow(m.db, NewFeedback(reqs[i])).Done? {
      SettleShape(m, i, reqs[i], m', m'.pcs[i]);
    } else {
      MoveShape(m, i, reqs[i], m'.pcs[i]);
    }
  }

  lemma ContinueShape(reqs: seq<Call>, m: Machine, i: nat, m': Machine)
    requires i < |reqs| == |m.pcs| && Continues(reqs, m, i, m')
    ensures Shape(m, i, reqs[i], m')
  {
    hide Shape, AppendInserts, AppendTouches, AppendCommits, ListReads, UpsertWrites, RenameReads, BranchInserts, BranchReads, BranchCopies, BranchCommits;
    match m.pcs[i]
    case AppendChecked => AppendShape(reqs, m, i, m');
    case AppendInserted => AppendShape(reqs, m, i, m');
    case AppendTouched => AppendShape(reqs, m, i, m');
    case BranchResolved(_, _, _) => BranchShape(m, i, reqs[i], m');
    case BranchInserted(_, _, _) => BranchShape(m, i, reqs[i], m');
    case BranchCopying(_, _, _) => BranchShape(m, i, reqs[i], m');
    case ListChecked => OtherShape(reqs, m, i, m');
    case UpsertChecked => OtherShape(reqs, m, i, m');
    case RenameUpdated => OtherShape(reqs, m, i, m');
  }

  /** The same for every step, lost connections included. */
  lemma StepShape(reqs: seq<Call>, m: Machine, i: nat, m': Machine)
    requires Step(reqs, m, i, m')
    ensures Shape(m, i, reqs[i], m')
  {
    hide Begins, Continues, Shape;
    if Breaks(m, i, m') {
      MoveShape(m, i, reqs[i], Finished(Failed(Internal)));
    } else if m.pcs[i].Ready? {
      BeginShape(reqs, m, i, m');
    } else {
      ContinueShape(reqs, m, i, m');
    }
  }
}
