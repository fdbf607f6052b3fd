# Verified model of the conversation store

The repository keeps chat conversations, their messages and the ratings on them, each row owned by one subject. One
`Store` interface of ten methods has two independent implementations: `InMemoryStore`, four linked maps over heap
objects behind one lock, and `PostgresStore`, sequences of SQL statements over three tables. A thin HTTP layer
authenticates a request, calls the store and maps its errors to statuses; an OIDC verifier routes each bearer token to
the issuer that can verify it. This project models all four and proves what they promise, over every run.

| files | content |
|---|---|
| `Types.dfy` | calls, replies, rows, fresh identifiers, clocks |
| `MemorySpec.dfy`, `MemoryInvariants.dfy` | what each in-memory method does to the four maps; the invariant of every run |
| `InMemoryStore.dfy` | the heap objects and the class, proved against that specification |
| `EventLog.dfy`, `LogRefinement.dfy` | what the interface promises, as a definition over the calls made so far alone; the in-memory store is proved to meet it exactly |
| `NonInterference.dfy`, `History.dfy`, `Lineage.dfy`, `Recency.dfy`, `ConversationRows.dfy`, `FeedbackHistory.dfy`, `Contract.dfy` | theorems about runs of the in-memory store |
| `Tables.dfy`, `DriverErrors.dfy`, `RelationalSpec.dfy`, `PostgresStore.dfy` | the tables, each SQL statement as one atomic step, the errors it raises, the methods one client at a time, and the class proved against them |
| `RelationalIsolation.dfy`, `RelationalFeedback.dfy`, `RelationalLineage.dfy` | non-interference, feedback and history over runs of the relational store |
| `TimestampCut.dfy`, `Simulation.dfy`, `SimulationRuns.dfy`, `Divergence.dfy` | the two stores agree, exactly when they do not, and what a caller then sees |
| `Interleaving.dfy`, `InterleavingSafety.dfy`, `Linearization.dfy`, `Explanations.dfy`, `ConcurrentHistory.dfy` | any number of clients taking turns statement by statement |
| `InterleavedIsolation.dfy`, `Anomalies.dfy`, `RenameRaces.dfy` | non-interference under concurrency; one execution that no sequential run explains; when a rename answers as a sequential one |
| `Oidc.dfy`, `Http.dfy`, `HttpServer.dfy`, `HttpOverPostgres.dfy`, `ConcurrentHttp.dfy` | issuer routing; middleware, handlers and error mapping over either store, one request at a time and interleaved; the server object |
| `HttpContract.dfy`, `PostgresContract.dfy`, `ConcurrentContract.dfy` | the REST interface in literal terms, over the in-memory store, over the tables and interleaved: who is admitted, every response, what it leaves behind and every status |
| `Permutations.dfy`, `FreshIds.dfy` | listings of a set are permutations of each other; fresh identifiers exist |

## How the code is modelled

- A call carries its clock reading `now` and the identifiers it would draw: `mint(k)` is its k-th `newID()`. Identifiers
  are globally fresh (`FreshTrace`), as random UUIDs are taken to be. No theorem assumes anything about the clock unless
  it says `MonotoneClock` (never backwards), `StrictClock` (strictly increasing from call to call) or `DistinctClocks` (no two
  calls at one reading).
- `InMemoryStore` is a class whose methods update its maps and objects in place. A ghost field `view` holds the abstract
  state the objects represent, and every method ensures `Does(old(view), call, view, reply)`. `MemorySpec.Next` is
  the effect of a call and `MemorySpec.Allows` its possible replies. Only the order of conversations with equal update times is
  left open, because `sort.Slice` over a map iteration is not stable.
- `PostgresStore` is a class over three maps from primary key to row. Foreign keys, `ON DELETE CASCADE`, primary keys and
  `mapPgErr` are in `Tables`; `ORDER BY` may return tied rows in any order. A transaction works on a copy that is
  installed on commit. `RelationalSpec.Steps` relates the tables before and after a call and its reply.
- `Interleaving` gives every call a program counter between its statements. A statement sees the committed tables of its
  moment (read committed, section 13.2.1 of the PostgreSQL manual); writes of an open transaction stay private until
  commit; inserting a message holds a key-share lock on its conversation row until commit, which a delete waits for
  but an update does not; an updated row is locked until commit (section 13.3.2). The
  connection may be lost before any statement or commit, which ends the call and leaves nothing of an open transaction
  behind, or after the last commit, when the call has taken effect and its caller still gets an error (`Unheard`).
- `Oidc.Jwt` stands for the token library during one `Subject` call. `Faithful` is all that is assumed of it: a parsed
  token is valid, carries the decoded payload, its `iss` equals the expected issuer, if there is one, exactly, and its `aud` holds the
  expected audience, if there is one (RFC 7519, sections 4.1.1 to 4.1.4). Discovery asks anew at each configured position, as the code does, so two entries of one issuer may hold
  different keys.

## Where code and documentation disagree

The model follows the code.

- `internal/store/postgres.go:264-266` says one shared creation time makes the copies of a branch sort stably. `ORDER BY
  created_at` leaves the order of equal times open, and a later branch inside such a block copies all of it instead of
  "up to and including the named message" (`internal/store/store.go:94-99`). `SimulationRuns.RunAgreesIffClean` is the
  exact condition, `SimulationRuns.StrictClockCuts` says when a strict clock meets it, and
  `Divergence.TheListingsDiffer` is a five-call run that does not: a listing has one message in one store and two in the
  other.
- `internal/store/store.go:71` calls feedback append-only; an upsert replaces it (`FeedbackHistory.LastWriterWins`).
- The two stores differ on deletion: the in-memory store keeps the feedback on deleted messages and goes on returning it
  (`internal/store/store.go:209-213`, `286-292`), Postgres cascades (`internal/store/postgres.go:403`).
  `Simulation.Matching` states the difference; everything else agrees.
- `CreateConversation` of the in-memory store hands out the stored object (`internal/store/store.go:145-153`), so a
  caller that keeps it sees later renames: `InMemory.CreateReturnsAnAlias`. Every other method returns a copy.
- Trailing slashes are trimmed from configured issuers and ignored when routing, but the token's `iss` is compared exactly, so an
  issuer whose tokens carry a trailing slash is never accepted (`Oidc.SlashedIssuerIsRefused`). Of an issuer configured
  twice only the first entry is ever tried; that loses nothing if and only if the first entry's keys accept what
  the others' do (`Oidc.FastIsExhaustiveIffFirstCovers`), and `Oidc.RepeatedIssuerIsUnheard` is a configuration and a
  token for which they do not.
- An issuer is trimmed of spaces first and of slashes second, so a space that stood before a trailing slash stays
  (`Oidc.NormalisedEnds`, `Oidc.SpaceBeforeSlash`).
- The append comment `internal/store/postgres.go:142-143` promises no orphan messages; it is the foreign key, not the
  check, that keeps the promise under concurrency (`Linearization.AppendLosesToDelete`). A branch has no such guard
  on its source: it copies the named message and all before it if and only if the source is still there at its copy
  query, and otherwise commits without messages (`Explanations.CopyIsWholeOrEmpty`). A rename answers from a
  snapshot later than its update: with no two calls at one clock reading it answers as the sequential rename if and only if no other rename,
  append or delete of the conversation takes effect in between (`RenameRaces.RenameAnswersItselfIff`). A message
  listing departs from the sequential one only by being empty when the conversation was deleted in between
  (`Linearization.ListingIsOneSnapshot`). `Anomalies.ThreeAnomalies` is one execution in which a branch, a rename and a
  listing each answer as no sequential call could.
- `internal/server/server.go:331-332` says malformed JSON is rejected when a body is present; a body of unknown length
  (`ContentLength` of -1) is not looked at (`Http.UnknownLengthIsNotRefused`). A branch request is answered 400 if and only if the
  length is positive and the body does not decode (`Http.BranchBodyRefusedIff`).

## Model

| member | source | states |
|---|---|---|
| InMemory.InMemoryStore.constructor | internal/store/store.go:121-130 | A new store is well formed and represents the empty state |
| InMemory.InMemoryStore.CreateConversation | internal/store/store.go:138-154 | The abstract create: forbidden without a subject, otherwise one new owned empty conversation; returns the stored object itself and no other map entry changes |
| InMemory.InMemoryStore.ListConversations | internal/store/store.go:156-172 | Whatever the iteration order: exactly the caller's conversations, each once, by descending update time; nothing changes |
| InMemory.InMemoryStore.GetConversation | internal/store/store.go:174-187 | The row if the caller owns it, NotFound if it is missing or someone else's |
| InMemory.InMemoryStore.RenameConversation | internal/store/store.go:189-200 | The heap update of one object is the abstract rename of one row: title and update time, nothing else |
| InMemory.InMemoryStore.DeleteConversation | internal/store/store.go:202-215 | Removes the row, its slice and exactly its messages' index entries; feedback stays |
| InMemory.InMemoryStore.AppendMessage | internal/store/store.go:217-237 | The abstract append; every slice keeps its objects as a prefix and no conversation object is replaced |
| InMemory.InMemoryStore.ListMessages | internal/store/store.go:239-252 | The owner's messages in append order, NotFound for everybody else |
| InMemory.InMemoryStore.UpsertFeedback | internal/store/store.go:254-281 | Rating checked first, then the message resolved through index and owner; the caller's entry is replaced and no other |
| InMemory.InMemoryStore.GetFeedback | internal/store/store.go:283-295 | The caller's own entry, whether or not the message still exists |
| InMemory.InMemoryStore.BranchFromMessage | internal/store/store.go:297-351 | The abstract branch; every existing conversation keeps its object and its slice, and all message objects of the new one are fresh |
| InMemory.InMemoryStore.Separation | internal/store/store.go:107-113 | No two conversations share an object and no message object is stored twice |
| InMemory.InMemoryStore.Remove | internal/store/store.go:209-213 | The delete loop empties the index of exactly the doomed slice |
| InMemory.InMemoryStore.CopyMessages | internal/store/store.go:336-347 | The copy loop makes fresh objects with the turns of its source in order, one time, and files all of them in the index |
| InMemory.Find | internal/store/store.go:313-319 | The search loop finds the first position of the id, or -1 |
| InMemory.SortNewestFirst | internal/store/store.go:168-170 | A permutation by descending update time |
| InMemory.CreateReturnsAnAlias | internal/store/store.go:145-153 | A caller keeping the result of a create sees a later rename; the copy from a get does not |
| MemoryInvariants.NextPreserves | internal/store/store.go:138-351 | Each of the ten methods keeps the maps linked, the index inverse to the slices, and one rater per message |
| MemoryInvariants.Reachable | internal/store/store.go:138-351 | So every run does, and the store holds only identifiers drawn earlier in the run |
| MemoryInvariants.DeletePreserves | internal/store/store.go:202-215 | The index stays exact through the delete loop |
| MemoryInvariants.BranchPreserves | internal/store/store.go:297-351 | The index stays exact through the copy loop |
| MemoryInvariants.AppendPreserves | internal/store/store.go:217-237 | The index stays exact through an append, and the message has no feedback yet |
| MemoryInvariants.IndexIsExactInverse | internal/store/store.go:110-112 | In every reachable state the index sends m to c if and only if c is live, holds m at exactly one position, and no other conversation holds it |
| MemoryInvariants.FallbackExitsAreDead | internal/store/store.go:264-322 | The exits for an index entry without conversation or message are never taken |
| LogRefinement.StoreReadsItsLog | internal/store/store.go:82-104 | After every run the replies open to a call are exactly those read off the calls before it alone: who created, renamed, deleted, appended, branched and rated what, last |
| LogRefinement.RunAgrees | internal/store/store.go:138-351 | After every run the rows, messages, homes of messages and ratings in the maps are those the calls of the run say |
| NonInterference.NonInterfering | internal/store/store.go:9-11 | Delete every other subject's calls from any run: each remaining call is still made and allows exactly the same replies |
| NonInterference.RunRestricts | internal/store/store.go:9-11 | A subject's part of the final state is the final state of its calls alone |
| NonInterference.LocalRespect | internal/store/store.go:138-351 | A call of another subject changes nothing the subject owns |
| NonInterference.StepConsistency | internal/store/store.go:138-351 | A subject's call acts on its rows as it acts on the whole store |
| NonInterference.OutputConsistency | internal/store/store.go:82-84 | Its replies are those of a store holding its rows alone: another's row is indistinguishable from a missing one |
| NonInterference.PurgeAt | internal/store/store.go:9-11 | Where a call lands once everybody else's calls are deleted |
| RelationalIsolation.OwnRun | internal/store/postgres.go:58-352 | For the relational store: delete every other subject's calls from any run, and the replies the subject got and the rows it has are those of a run of its calls alone |
| RelationalIsolation.WholeRun | internal/store/postgres.go:58-352 | And back: every run of a subject's calls alone is what the subject sees of some run of all the calls |
| RelationalIsolation.StepOnTheWhole | internal/store/postgres.go:58-352 | What a call does on its subject's rows alone it can do on the whole tables |
| InterleavedIsolation.OwnExecution | internal/store/postgres.go:58-352 | Leave every move of every other subject's clients out of an execution: what remains is an execution, and ends with the subject's rows and clients as they were |
| InterleavedIsolation.SameRepliesAlone | internal/store/postgres.go:58-352 | So every reply a subject's clients got under concurrency they could have got with nobody else there: no lock and no race crosses subjects |
| InterleavedIsolation.OtherHappens | internal/store/postgres.go:58-352 | No event of another subject's client changes the subject's rows, clients or locks |
| RelationalIsolation.SameReplies | internal/store/postgres.go:58-352 | The replies open to a call on the whole tables and on its subject's rows alone are the same |
| RelationalIsolation.OwnStep | internal/store/postgres.go:58-352 | A call acts on its subject's rows as on the whole tables |
| RelationalIsolation.OtherStep | internal/store/postgres.go:58-352 | A call leaves every other subject's rows as they were, cascades and the update by id alone included |
| RelationalIsolation.ShareCascadeOther | internal/store/postgres.go:391-403 | A cascade never reaches another subject's messages or feedback |
| History.AppendOnly | internal/store/store.go:217-237 | A conversation's earlier message sequence, ids, roles, contents and times, is a prefix of every later one; owner and creation time are fixed |
| History.NoRebirth | internal/store/store.go:202-215 | A deleted conversation's identifier never comes back |
| History.StepShape | internal/store/store.go:189-237 | What one call can do to a conversation that outlives it: add one message at the end or none, and set the update time to now or leave it |
| History.BirthShape | internal/store/store.go:138-154 | A conversation appears only by create or branch, with the turns of nothing or of the source prefix, all dated now |
| History.TimeCoherence | internal/store/store.go:224-234 | Under a monotone clock messages are in time order and lie between creation and update time |
| History.UpdateTimeMonotone | internal/store/store.go:189-237 | Under a monotone clock the update time never decreases along a run |
| Lineage.LineageTheorem | internal/store/store.go:297-351 | Every live conversation's transcript is its ancestor's at the branch point, recursively to a root, cut at the named message, plus its own appends, whatever happened to the ancestors since |
| Lineage.LaterBirth | internal/store/store.go:297-351 | What a conversation inherited does not depend on any later call |
| Lineage.StrictDates | internal/store/store.go:323-347 | Under a strict clock the inherited messages all carry the creation time and the appended ones follow strictly increasing |
| Recency.UpdatedAtIsLastTouch | internal/store/store.go:138-351 | A conversation's update time is the clock reading of its last create, rename, append or branch |
| Recency.ListingIsByLastTouch | internal/store/store.go:156-172 | Under a strict clock any listing names the caller's live conversations once each, in the order of last touch in the run |
| Recency.ListingIsUnique | internal/store/store.go:163-170 | So the listing does not depend on map iteration or sort stability |
| ConversationRows.RowFromTrace | internal/store/store.go:174-200 | After any run the row of a live conversation is its creator, the creation time, the title last given and the time of the last touch, and its owner alone is answered it |
| ConversationRows.TitleIsLastGiven | internal/store/store.go:324-327 | The title is the one the last rename gave or else the creating call, where an untitled branch takes its source's title at that moment, given in turn |
| FeedbackHistory.StoredIsLastRating | internal/store/store.go:254-281 | What is stored under a key is the key's message and subject with the rating, comment and clock reading of the last successful upsert in the run, or nothing |
| FeedbackHistory.LastWriterWins | internal/store/store.go:71-73 | GetFeedback returns exactly that, and NotFound exactly when there was none |
| FeedbackHistory.OneRaterPerMessage | internal/store/store.go:264-267 | In any run at most one subject ever rates a message |
| RelationalFeedback.StoredIsLastRating | internal/store/postgres.go:230-236 | In every relational run, under any clock and any branches, a feedback row is there if and only if its message still is and an upsert under its key succeeded, and holds the key and the rating, comment and clock reading of the last one |
| RelationalFeedback.LastWriterWins | internal/store/postgres.go:246-261 | GetFeedback returns exactly that, and NotFound when there was none or the message is gone |
| RelationalFeedback.OneRaterPerMessage | internal/store/postgres.go:220-229 | In any relational run at most one subject ever rates a message |
| RelationalFeedback.RowStays | internal/store/postgres.go:389-396 | A message row is the same at any two points of a run, and one that went never returns |
| RelationalLineage.LineageTheorem | internal/store/postgres.go:269-352 | In every relational run, under any clock and with branches cut anywhere, the messages of every live conversation say: all of the ancestor's history at the branch point that is not later than the named message, recursively to a root, at the time of the branch, and then its own appends, whatever happened to the ancestors since |
| RelationalLineage.CutIsTieClosedPrefix | internal/store/postgres.go:311-316 | On a history in time order what is not later is the prefix closed under equal times |
| RelationalLineage.TranscriptIsTimed | internal/store/postgres.go:311-340 | Under a monotone clock the history of a live conversation is in time order |
| RelationalLineage.AppendOnly | internal/store/postgres.go:141-179 | Between any two points of a relational run at which a conversation is live it keeps every message, its owner and its creation time |
| RelationalLineage.NoRebirth | internal/store/postgres.go:129-139 | A deleted conversation's identifier never comes back |
| Contract.DeletedForGood | internal/store/store.go:202-215 | From a delete to the end of the run nobody reads, renames, appends to or deletes the conversation, nor branches from or rates, with whatever rating, any message that was in it |
| Contract.NoMessageRebirth | internal/store/store.go:202-215 | A message identifier that was stored once and is gone never comes back |
| Contract.BranchCopiesPrefix | internal/store/store.go:94-99 | The new conversation holds exactly p+1 messages with the source's turns, fresh distinct ids, its own id, indexed, without feedback, title defaulted |
| Contract.OthersUntouched | internal/store/store.go:94-99 | Every conversation a call does not name, the source of a branch included, keeps its row and messages |
| Contract.OtherFeedbackUntouched | internal/store/store.go:254-281 | Feedback changes only under the key an upsert writes; a refused call changes nothing |
| Postgres.PostgresStore.CreateConversation | internal/store/postgres.go:58-72 | One insert under a new primary key, or the mapped error and no change |
| Postgres.PostgresStore.ListConversations | internal/store/postgres.go:74-97 | The caller's rows, each once, by descending update time, ties in any order |
| Postgres.PostgresStore.GetConversation | internal/store/postgres.go:99-112 | The row under both conditions, or NotFound |
| Postgres.PostgresStore.RenameConversation | internal/store/postgres.go:114-127 | One update, NotFound when it affects no row, then the row as read back |
| Postgres.PostgresStore.DeleteConversation | internal/store/postgres.go:129-139 | The row and, by cascade, its messages and their feedback; NotFound when no row is affected |
| Postgres.PostgresStore.AppendMessage | internal/store/postgres.go:141-179 | Check, insert and touch take effect together or not at all |
| Postgres.PostgresStore.ListMessages | internal/store/postgres.go:181-212 | The rows of the conversation by time, ties in any order, after the owner check |
| Postgres.PostgresStore.UpsertFeedback | internal/store/postgres.go:214-244 | Rating, then owner of the message, then insert-or-replace under the foreign key |
| Postgres.PostgresStore.GetFeedback | internal/store/postgres.go:246-261 | The caller's row, or NotFound |
| Postgres.PostgresStore.BranchFromMessage | internal/store/postgres.go:269-352 | Resolve, insert the row, copy what `created_at <= cut` selects, all or nothing |
| Postgres.InsertTurns | internal/store/postgres.go:336-343 | The insert loop equals the recursive copy, and stops with the first error |
| RelationalSpec.CopiesInsert | internal/store/postgres.go:336-343 | With unused identifiers the copy never raises, adds one row per source row and touches nothing else |
| RelationalSpec.BranchSucceeds | internal/store/postgres.go:294-351 | A resolved branch with unused identifiers always succeeds |
| RelationalSpec.StepConsistent | internal/store/postgres.go:378-409 | Every method keeps the foreign keys and makes every row's `sub` that of its parent |
| RelationalSpec.RunsConsistent | internal/store/postgres.go:378-409 | So every sequential run does, and no call meets an identifier already in use |
| RelationalSpec.RunExists | internal/store/postgres.go:58-352 | No call ever gets stuck: every trace has a run, so the theorems about runs speak of every trace |
| RelationalSpec.OwnershipChecksAgree | internal/store/postgres.go:214-229 | Checks by message owner, by conversation owner and by both accept the same pairs, and the owner filter of the listing drops no row |
| TimestampCut.CutIsShortestTieClosedPrefix | internal/store/postgres.go:311-316 | `created_at <= cut` selects exactly the shortest prefix that contains the cut message and is closed under equal times |
| TimestampCut.CutIsPositionalIffClean | internal/store/postgres.go:311-316 | It is the positional prefix if and only if the next message is strictly later |
| Simulation.StepSimulates | internal/store/postgres.go:58-352 | One relational call on related states: states related again, and a reply the in-memory store may give, up to ties and to feedback on deleted messages |
| Simulation.CopyIsTieClosedPrefix | internal/store/postgres.go:311-316 | The copy has the length and the turns, with times, of the tie-closed prefix of the in-memory slice |
| Simulation.ListingMatches | internal/store/postgres.go:192-196 | The relational listing is the in-memory one up to the order inside blocks of equal times |
| Simulation.SourceAgrees | internal/store/postgres.go:283-292 | The join resolves a branch source exactly when index and owner do, to the same conversation and time |
| Simulation.DeleteSimulates | internal/store/postgres.go:129-139 | The cascade removes the messages the delete loop unindexes, and feedback stays equal on live messages |
| SimulationRuns.RunSimulates | internal/store/postgres.go:58-352 | Along every sequential run under a monotone clock with clean cuts, tables and objects stay related and all replies match |
| SimulationRuns.RunAgreesIffClean | internal/store/postgres.go:58-352 | The stores stay related along a whole run if and only if every branch in it that takes effect cuts after the last message of its time |
| SimulationRuns.BranchAgreesIffClean | internal/store/postgres.go:311-316 | A branch keeps the stores related if and only if the message after its cut is strictly later |
| SimulationRuns.StrictClockCuts | internal/store/postgres.go:264-266 | Under a strict clock a cut is clean if and only if it is not before the last inherited message; always, for a conversation that inherited nothing |
| SimulationRuns.NoTiesNoShuffle | internal/store/postgres.go:192-196 | Without equal times both stores list the same sequence |
| SimulationRuns.BranchOfBranchCutsDirty | internal/store/postgres.go:264-266 | A strictly clocked run whose last branch succeeds and cuts inside a block of equal times |
| SimulationRuns.BranchOfBranchDiverges | internal/store/postgres.go:264-266 | No relational run of those calls agrees with the in-memory store to the end |
| Divergence.BranchListings | internal/store/postgres.go:311-316 | Right after a branch of related stores its listing has as many messages as the cut's position says in one store, and as many as the block of equal times reaches in the other |
| Divergence.TheListingsDiffer | internal/store/postgres.go:264-266 | After those five calls the second branch lists one message in the in-memory store and two in every relational run |
| Divergence.BranchOfBranchHappens | internal/store/postgres.go:264-266 | Identifiers for those calls exist, and a relational run of them |
| InterleavingSafety.HappeningKeepsInv | internal/store/postgres.go:58-352 | Any statement of any client, any commit and any loss of a connection, before or after the last commit, keeps the committed tables consistent and what every client relies on true |
| InterleavingSafety.StepKeepsInv | internal/store/postgres.go:378-409 | The same for one statement or commit; and over it owners never change, deleted rows never come back, and a message row stays as it is until its conversation is deleted |
| InterleavingSafety.ExecutionSafe | internal/store/postgres.go:378-409 | In every state of every interleaving each committed message has a committed conversation of its `sub` and each feedback row a committed message of its `sub` |
| InterleavingSafety.AppendEvolves | internal/store/postgres.go:168-174 | When an append commits, its conversation is still there and still the caller's |
| InterleavingSafety.UpsertEvolves | internal/store/postgres.go:222-236 | An upsert that passes the foreign key writes to a message that is the caller's, though its check ran earlier |
| Linearization.AppendLosesToDelete | internal/store/postgres.go:148-167 | A delete between check and insert ends the append in NotFound, through the foreign key, with no row |
| Linearization.UpsertLosesToDelete | internal/store/postgres.go:220-238 | The same race for feedback |
| Linearization.EndLinearizes | internal/store/postgres.go:58-261 | The last step of a create, list, get, delete, append, upsert or feedback read has the whole effect and reply of the sequential call |
| Explanations.UnmarkedIsSilent | internal/store/postgres.go:58-352 | Every call has at most one step that changes the committed tables; no other statement does, nor the loss of a connection |
| ConcurrentHistory.EveryExecutionExplained | internal/store/postgres.go:58-352 | Any interleaving of all ten methods leads, in the order of those steps, from the empty tables to the final ones: each call has its sequential effect and reply on the tables of that step, except that a listing may be empty when the conversation its first statement checked has been deleted since, a branch resolves its source in its first statement and copies whole, or after a delete nothing, from tables committed since, and a rename answers from the tables of its own last statement |
| ConcurrentHistory.SinceIsFirstStep | internal/store/postgres.go:58-352 | The tables a call's exceptions may go back to are those of its own first statement, for a rename those its update left |
| ConcurrentHistory.UntilIsLastStep | internal/store/postgres.go:58-352 | And the tables they may go up to are those of its own last statement |
| ConcurrentHistory.AnswersAreReplies | internal/store/postgres.go:58-352 | Every answer in the explanation is the reply its client holds at the end |
| ConcurrentHistory.OrderIsRealTime | internal/store/postgres.go:58-352 | The order respects real time: a call that had taken effect before another made its first statement comes first |
| Explanations.MarkExplains | internal/store/postgres.go:58-352 | The same for one step, given the committed tables before it |
| Explanations.CopyIsWholeOrEmpty | internal/store/postgres.go:311-316 | The copy of a branch has the named message if and only if the source is still there at the copy query; then it has all that the cut selected when the source was resolved, and otherwise nothing |
| Anomalies.ThreeAnomalies | internal/store/postgres.go:181-212 | One execution in which a branch commits without messages, a rename answers another's title, and a listing is empty though on none of the tables of its lifetime a sequential one would be |
| Anomalies.SequentialBranchHasMessages | internal/store/postgres.go:269-352 | A sequential branch that succeeds always leaves a message in the new conversation |
| Anomalies.SevenCallsExist | internal/store/postgres.go:58-352 | Identifiers for that execution exist |
| ConcurrentHistory.Linearizable | internal/store/postgres.go:58-261 | So any interleaving of creates, conversation listings, gets, deletes, appends and feedback calls is a sequential run with the replies the clients hold and the same final tables |
| ConcurrentHistory.OrderIsWhoEnded | internal/store/postgres.go:58-352 | The order names exactly the calls that the store answered, whether or not the answer arrived, or that made their rename, each once |
| Explanations.UndisturbedBranch | internal/store/postgres.go:269-352 | A branch nobody interferes with is exactly the sequential branch, in both directions |
| Linearization.RenameUpdates | internal/store/postgres.go:114-127 | A rename takes effect as the sequential one does and answers what its own read finds |
| RenameRaces.RenameAnswersItself | internal/store/postgres.go:114-127 | A rename answers as the sequential rename if no rename, append or delete of the conversation takes effect between its update and its read |
| RenameRaces.RenameAnswersItselfIff | internal/store/postgres.go:114-127 | With no two calls at one clock reading, only then |
| RenameRaces.HappeningMoves | internal/store/postgres.go:114-179 | No event changes the row of an old conversation but the effect of a rename, append or delete of it, which leaves the time of its call or no row |
| Linearization.ListingIsOneSnapshot | internal/store/postgres.go:181-212 | A message listing is that of the sequential call on one committed snapshot, or empty after a delete fell between its statements |
| Linearization.BranchInvisible | internal/store/postgres.go:273-347 | Before its commit no reader sees any row of a branch |
| Linearization.BranchCommitsItsCopy | internal/store/postgres.go:311-347 | The commit shows, at once, exactly the rows of its one copy query, under fresh ids and one time |
| Linearization.BranchAllOrNothing | internal/store/postgres.go:266-267 | At every later moment all rows of a committed branch are there, unchanged, or, after a delete, none |
| RenameRaces.LockHolds | internal/store/postgres.go:168-174 | From an append's update of its conversation row to its end no event of another client changes or removes that row |
| Linearization.AnyCallMayFail | internal/store/postgres.go:58-352 | Any unfinished call can fail with nothing more committed, and any answer can be lost after its commit |
| DriverErrors.Mapping | internal/store/postgres.go:354-370 | SQLSTATE 23505 is a conflict, 23503 a missing row, any other error a missing row if its text says "no rows" somewhere and internal otherwise |
| DriverErrors.CreateCollides | internal/store/postgres.go:58-72 | A create is a conflict if and only if its identifier is taken, and then changes nothing |
| DriverErrors.AppendCollides | internal/store/postgres.go:141-179 | An append to an owned conversation is a conflict if and only if its identifier is taken, and is then rolled back |
| DriverErrors.BranchCollides | internal/store/postgres.go:269-352 | A branch that has resolved its source is a conflict, rolled back, if and only if the identifier of its conversation is taken or one of its copies' is taken or drawn twice |
| Linearization.Progress | internal/store/postgres.go:141-179 | No deadlock: while a call is unfinished some unfinished call can take its next statement |
| Oidc.NewVerifier | internal/server/oidc.go:62-105 | Succeeds exactly when some usable position remains and discovery succeeds at every one; one entry per usable position, in order, normalised, with the keys found at that position |
| Oidc.Verify | internal/server/oidc.go:147-183 | With audiences, the accepted subject is that of the token parsed under one of the listed ones, and without, of the token parsed under none; and every subject so validated is accepted |
| Oidc.VerifySubject | internal/server/oidc.go:118-145 | The fast path accepts a token for a subject if and only if the first entry of some issuer validates it, whatever the peek returned |
| Oidc.AcceptedIsMeant | internal/server/oidc.go:147-183 | Every accepted token was issued by a configured issuer, and if that has configured audiences its `aud` holds one of them |
| Oidc.ForeignAudienceIsRefused | internal/server/oidc.go:157-166 | With configured audiences, a token for none of them is refused whatever else it says |
| Oidc.ListedAudienceIsAccepted | internal/server/oidc.go:157-183 | A token that parses under any one listed audience of an issuer configured once, with a subject, is accepted as that subject |
| Oidc.ValidatesIff | internal/server/oidc.go:147-183 | An issuer validates a token if and only if it parses with a non-empty subject under no audience when none is listed, and under a listed one otherwise |
| Oidc.TrimSpaceTrims | internal/server/oidc.go:73 | Trimming removes spaces from both ends and nothing else |
| Oidc.NormalisedEnds | internal/server/oidc.go:73-76 | A configured issuer neither starts with a space nor ends with a slash, and ends with a space only where one stood before a trimmed slash |
| Oidc.SpaceBeforeSlash | internal/server/oidc.go:73 | An issuer that keeps a trailing space |
| Oidc.DistinctIssuersRefineExhaustive | internal/server/oidc.go:123-139 | With pairwise distinct issuers that is the exhaustive search over all of them |
| Oidc.RoutingIsExact | internal/server/oidc.go:123-139 | The candidates the peek leaves lose no first entry and add none |
| Oidc.FastIsExhaustiveIffFirstCovers | internal/server/oidc.go:123-139 | With repeated issuers the fast path accepts what exhaustive search accepts, for every token, if and only if the first entry of each issuer accepts whatever its other entries accept |
| Oidc.StableKeysLoseNothing | internal/server/oidc.go:72-139 | For every configuration, duplicates and slash variants included, whose positions of one issuer found the same keys, a token is accepted if and only if some entry validates it |
| Oidc.RepeatedIssuerIsUnheard | internal/server/oidc.go:72-131 | A configuration, keys replaced between two downloads, and a token that the verifier built from them refuses though its second entry validates it |
| Oidc.SlashedIssuerIsRefused | internal/server/oidc.go:73-127 | A token whose `iss` ends in a slash is refused under every configuration |
| HttpServer.Server.Serve | internal/server/server.go:97-162 | One request on the heap objects: admitted as a subject it gets the literal response expected of it and leaves the literal rows it should; not admitted it gets 401 and leaves everything |
| HttpServer.Server.Perform | internal/server/server.go:195-345 | An operation is performed by the store's method of that name with its arguments |
| Http.InvokesAreVerified | internal/server/server.go:135-162 | Every API handler's store call carries the non-empty subject the verifier returned for the token after "Bearer " |
| HttpContract.RefusedIff | internal/server/server.go:135-162 | Off the health paths and preflights a request is answered 401 if and only if its header is not "Bearer " and a token the verifier gives a non-empty subject; then the store is neither called nor changed |
| HttpContract.Unguarded | internal/server/server.go:78-94 | Liveness answers 200 without the store, readiness lists the conversations of a fixed subject and answers 200, and neither they nor a preflight changes the store |
| HttpContract.RoutesTo | internal/server/server.go:97-108 | The pattern table: an admitted request makes exactly the one store call its verb, path and body name, as its subject, or none |
| HttpContract.ServesIff | internal/server/server.go:191-345 | The responses an admitted request may get, status and body, are exactly those written out literally for its verb, path, body and the caller's rows |
| HttpContract.MovesLeaves | internal/server/server.go:191-345 | And it leaves exactly the rows written out literally: created, renamed, deleted, appended, copied or rated, everything else as it was |
| HttpContract.CreateThenGet | internal/server/server.go:205-230 | POST of a conversation answers 201, and GET then answers the same row |
| HttpContract.RenameThenGet | internal/server/server.go:222-247 | PATCH of an owned conversation answers 200 with the new title and time, and GET then answers the same row |
| HttpContract.DeleteThenGet | internal/server/server.go:222-266 | DELETE of an owned conversation answers 204; it is gone, and GET of it or of its messages is 404 |
| HttpContract.GoneForGood | internal/server/server.go:249-256 | A conversation gone after some requests is gone after any more of them |
| HttpContract.AppendThenList | internal/server/server.go:258-290 | POST of a message with one of the four roles answers 201, and GET then lists what was there and the message last, with its role and content |
| HttpContract.RateThenGet | internal/server/server.go:292-318 | PUT of "good" or "bad" with a comment answers 200, and GET then answers that rating and comment |
| HttpContract.BranchThenList | internal/server/server.go:320-346 | POST of a branch of the i-th message answers 201 with the given or suffixed title, and GET then lists copies of the first i + 1 |
| HttpContract.Lists | internal/server/server.go:195-203 | GET of the collection answers all the caller's conversations and no other, each once, the last updated first |
| HttpContract.Reached | internal/server/server.go:191-345 | What those lemmas ask of a state holds after any fresh requests |
| HttpContract.Statuses | internal/server/server.go:372-384 | The status of an admitted request as a table of its verb, path, body and of whether what it names is the caller's |
| HttpContract.NotFoundIff | internal/server/server.go:372-376 | Over every run: 404 if and only if what the request names is not there for its subject; 500 for a bad rating |
| HttpContract.NeverConflict | internal/server/server.go:372-384 | Over every run no request is answered 409 |
| PostgresContract.ServesExpected | internal/server/server.go:191-345 | Every response over the tables is the one written out literally over the same rows, with messages of equal dates in some order |
| PostgresContract.BranchReply | internal/store/postgres.go:269-352 | A branch answers the new row with the given title, or its source's with a suffix, if the message is the caller's, and NotFound otherwise |
| PostgresContract.UpsertReply | internal/store/postgres.go:214-243 | A rating other than "good" and "bad" is invalid; otherwise an own message's upsert answers its rating, comment and time, and another's is NotFound |
| PostgresContract.ServedIsRun | internal/server/server.go:191-345 | Requests served over the tables are a relational run of the calls they make |
| PostgresContract.Statuses | internal/server/server.go:372-384 | The table of statuses holds over any consistent tables |
| PostgresContract.NotFoundIff | internal/server/server.go:372-376 | Over every relational run: 404 if and only if what the request names is not there for its subject; 500 for a bad rating |
| PostgresContract.NeverConflict | internal/server/server.go:372-384 | Over every relational run no request is answered 409 |
| ConcurrentContract.Statuses | internal/server/server.go:372-384 | However requests interleave, each has the status of the table on the tables one of its own statements saw, or is 500 because its connection was lost |
| ConcurrentContract.NotFoundAndConflict | internal/server/server.go:372-384 | So 404 needs a statement that did not find what the request names, is certain if none found it, a bad rating is 500, and 409 never occurs |
| ConcurrentContract.MissingAtFirst | internal/store/postgres.go:58-352 | A first statement that does not find what its request names ends it with NotFound and changes nothing |
| ConcurrentContract.ProbeStatus | internal/server/server.go:83-94 | A readiness probe among concurrent requests is 503 if its connection was lost and 200 otherwise |
| Http.NeverForbidden | internal/server/server.go:372-384 | Status 403 is never produced, in any store state |
| Http.BranchBodyRefusedIff | internal/server/server.go:331-338 | An authenticated branch request is answered 400 if and only if its length is positive and its body does not decode; otherwise the store is called, with an empty title when the body was not looked at |
| Http.UnknownLengthIsNotRefused | internal/server/server.go:331-338 | A body of unknown length that does not decode is not refused |
| Http.StoredRolesAreValid | internal/server/server.go:278-283 | After any requests every stored message, appended or copied, has one of the four roles |
| HttpOverPostgres.StoredRolesAreValid | internal/server/server.go:278-283 | The same for every message row of every relational run of the requests' calls |
| HttpOverPostgres.NeverForbidden | internal/server/server.go:372-384 | Nor does any relational run of the requests' calls give status 403 |
| ConcurrentHttp.StoredRolesAreValid | internal/server/server.go:278-283 | However the requests interleave, every message row ever committed has one of the four roles |
| ConcurrentHttp.NeverForbidden | internal/server/server.go:372-384 | However the requests interleave, none is answered with status 403 |
| ConcurrentHttp.ServedAlone | internal/store/store.go:9-11 | Every response to a subject's request under concurrency is one it gets in an execution in which only that subject's requests are served |
| HttpOverPostgres.ForbiddenNeedsNoSubject | internal/store/postgres.go:58-352 | The relational store answers Forbidden only to a call without a subject |
| Http.AfterIsRun | internal/server/server.go:191-345 | A sequence of requests leaves the store where the trace of its calls leaves it, so every theorem about runs applies |
| Http.CallsAreFresh | internal/server/server.go:191-345 | Fresh requests make a fresh trace |
| Http.OfIsPurge | internal/server/server.go:135-162 | Dropping requests of other subjects drops exactly their calls |
| Http.ResponsesIgnoreOthers | internal/store/store.go:9-11 | Of all requests served before, only those of the same subject matter to a response |

## Left out

- The MCP surface (`internal/mcp`, `internal/server/mcp.go`): a stateless stub; its paths count as `Elsewhere` and are answered 404 here.
- The tables `rag_documents` and `rag_chunks`: no code reads or writes them.
- JSON decoding and encoding, URL matching and path cleaning, CORS, graceful shutdown, flags and environment: a request is a verb, a path, a header, a content length and the decoded body. A response is a status and the store's reply; error texts, and that `HEAD` sends no body, are left out.
- Signatures, key sets, discovery documents and token decoding: parameters of `Oidc`. The clock is read once per `Subject` call, so a token that expires between two audience attempts is not modelled.
- `ClaimsOnlyVerifier` and `StaticSubjectVerifier`: development stand-ins; `Http` takes any verifier.
- `ConcurrentHistory.Linearizable`: covers the seven methods that have one linearization point. A rename, a message listing and a branch read more than one snapshot; `ConcurrentHistory.EveryExecutionExplained` says what they may do and `Anomalies.ThreeAnomalies` that they do it.
- `SimulationRuns.RunSimulates`: relates message texts up to order inside a block of equal times, because SQL leaves that order open.
- `InMemory.InMemoryStore`: each method is one atomic step; the read-write lock itself, `SetClock` and `SetIDGen` are not modelled.
- Identifier collisions: runs and interleavings assume freshness, so waits between two uncommitted inserts of one key do not arise; what a taken identifier does to one call is in `DriverErrors`. A malformed UUID, which Postgres reports as an unmapped error, is not modelled either.
- `Postgres.PostgresStore`: connection failures appear in the interleaved machine alone, where any statement may be the last; microsecond rounding and time zones of `TIMESTAMPTZ` are left out, times are integers.
- The wording of errors: the two stores word a bad rating differently, and both count as `InvalidRating`.
- Liveness beyond deadlock freedom: no fairness of the database's lock queues is assumed, so no call is proved to end.
