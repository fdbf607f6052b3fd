/** The relational tables, their keys, and each SQL statement of the Postgres store as one atomic step. */
module Tables {
  import opened StoreTypes

  datatype MessageRow = MessageRow(conversationId: Id, sub: Subject, role: string, content: string, createdAt: Time)

  /** Three tables, each a map from primary key to row. */
  datatype Database = Database(
    conversations: map<Id, Conversation>,
    messages: map<Id, MessageRow>,
    feedback: map<FeedbackKey, Feedback>)

  const NoRows := Database(map[], map[], map[])

  /** An error of the driver: a server error with its SQLSTATE, or any other error by its text. */
  datatype DriverError = PgError(code: string, text: string) | Plain(text: string)

  const UNIQUE_VIOLATION := "23505"
  const FOREIGN_KEY_VIOLATION := "23503"

  predicate Contains(text: string, part: string) {
    part <= text || (text != "" && Contains(text[1..], part))
  }

  function MapPgErr(err: DriverError): StoreError {
    if err.PgError? && err.code == UNIQUE_VIOLATION then Conflict
    else if err.PgError? && err.code == FOREIGN_KEY_VIOLATION then NotFound
    else if Contains(err.text, "no rows") then NotFound
    else Internal
  }

  /** A data-modifying statement either changes the tables and reports the rows affected, or raises and changes nothing. */
  datatype Exec = Done(db: Database, affected: nat) | Raised(error: DriverError)

  function Duplicate(): Exec {
    Raised(PgError(UNIQUE_VIOLATION, "duplicate key value violates unique constraint"))
  }

  function Orphan(): Exec {
    Raised(PgError(FOREIGN_KEY_VIOLATION, "insert or update violates foreign key constraint"))
  }

  function InsertConversation(db: Database, c: Conversation): Exec {
    if c.id in db.conversations then Duplicate()
    else Done(db.(conversations := db.conversations[c.id := c]), 1)
  }

  predicate OwnsRow(db: Database, sub: Subject, id: Id) {
    id in db.conversations && db.conversations[id].sub == sub
  }

  function UpdateTitle(db: Database, id: Id, sub: Subject, title: string, now: Time): Exec {
    if OwnsRow(db, sub, id)
    then Done(db.(conversations := db.conversations[id := db.conversations[id].(title := title, updatedAt := now)]), 1)
    else Done(db, 0)
  }

  /** The update of AppendMessage, which names the conversation by identifier alone. */
  function TouchConversation(db: Database, id: Id, now: Time): Exec {
    if id in db.conversations
    then Done(db.(conversations := db.conversations[id := db.conversations[id].(updatedAt := now)]), 1)
    else Done(db, 0)
  }

  function MessagesIn(db: Database, id: Id): set<Id> {
    set m | m in db.messages && db.messages[m].conversationId == id
  }

  /** ON DELETE CASCADE, twice: the messages of the conversation, and the feedback on them. */
  function Cascade(db: Database, id: Id): Database {
    Database(
      db.conversations - {id},
      db.messages - MessagesIn(db, id),
      db.feedback - (set k | k in db.feedback && k.messageId in MessagesIn(db, id)))
  }

  function DeleteRow(db: Database, id: Id, sub: Subject): Exec {
    if OwnsRow(db, sub, id) then Done(Cascade(db, id), 1) else Done(db, 0)
  }

  /** The primary key is checked on insertion, the foreign key at the end of the statement. */
  function InsertMessage(db: Database, id: Id, row: MessageRow): Exec {
    if id in db.messages then Duplicate()
    else if row.conversationId !in db.conversations then Orphan()
    else Done(db.(messages := db.messages[id := row]), 1)
  }

  function UpsertRow(db: Database, f: Feedback): Exec {
    if f.messageId !in db.messages then Orphan()
    else Done(db.(feedback := db.feedback[FeedbackKey(f.sub, f.messageId) := f]), 1)
  }

  predicate OwnsMessage(db: Database, sub: Subject, m: Id) {
    m in db.messages && db.messages[m].sub == sub
  }

  /** The join that resolves the source of a branch, with both ownership conditions. */
  predicate JoinsSource(db: Database, sub: Subject, m: Id) {
    OwnsMessage(db, sub, m) && OwnsRow(db, sub, db.messages[m].conversationId)
  }

  function ToMessage(m: Id, row: MessageRow): Message {
    Message(m, row.conversationId, row.role, row.content, row.createdAt)
  }

  predicate Matches(row: MessageRow, c: Id, sub: Subject, until: Option<Time>) {
    row.conversationId == c && row.sub == sub && (until.Some? ==> row.createdAt <= until.value)
  }

  /** The rows of the two message queries; `until` is the `created_at <= cut` condition of the copy query. */
  function Selected(db: Database, c: Id, sub: Subject, until: Option<Time>): set<Message> {
    set m | m in db.messages && Matches(db.messages[m], c, sub, until) :: ToMessage(m, db.messages[m])
  }

  /** Any result the query may return: ORDER BY leaves the order of equal times open. */
  ghost predicate IsResult(db: Database, c: Id, sub: Subject, until: Option<Time>, ms: seq<Message>) {
    Enumerates(ms, Selected(db, c, sub, until)) && OldestFirst(ms)
  }

  /** What the schema and the store keep together: every message has a conversation of its own `sub`,
      every feedback row has a message of its own `sub`. */
  ghost predicate Consistent(db: Database) {
    && (forall c :: c in db.conversations ==> db.conversations[c].id == c && db.conversations[c].sub != "")
    && (forall m :: m in db.messages ==>
          OwnsRow(db, db.messages[m].sub, db.messages[m].conversationId))
    && (forall k :: k in db.feedback ==>
          && OwnsMessage(db, k.sub, k.messageId)
          && db.feedback[k].sub == k.sub && db.feedback[k].messageId == k.messageId)
  }
}
