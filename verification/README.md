# Verified model of the message service

A Dafny 4.11 model of the message service: its optimistic locking behind a cache-aside map, the
relational rules around it, the startup of many replicas, the admission rules for its images, and
its request plumbing. `dafny verify dfyconfig.toml` checks everything.

## How it is built

| Module | What it models |
|---|---|
| `Validation`, `TextRules` | `app/schemas.py`: trimming, limits, the email pattern as a backtracking matcher; and the same rules told with the whitespace characters written out |
| `Relational`, `Endpoints` | the two tables, every request as one function on them (`Exec`, `Serve`: the service with no cache), soundness of the tables; and what each request does, field by field |
| `Service`, `OldAnswers` | `app/services/*.py` and `app/cache.py` run one request at a time: a `Session` and a `HazelcastCache` updated in place; and exactly which answers differ from those of the service with no cache |
| `Protocol` | the same handlers interleaved: any number of requests on any number of pods, one step per await, row, key and index locks, READ COMMITTED statements, a call that raises or a process that dies anywhere |
| `ProtocolInvariant`, `ProtocolSteps`, `ProtocolCommits` | the invariant, by rely and guarantee over the locks a stage holds, and that every step keeps it |
| `ProtocolTheorems`, `RequestTheorems`, `AnswerTheorems`, `RefusalTheorems` | what holds in every state of every execution: the tables, what each status tells, the answers of writes in the serial order, and the moments at which refusals and reads are right |
| `SlowReader`, `LateCreation` | two runs: a stale entry, and a conflict that is right at no moment |
| `Deadlock`, `LockTable` | who waits for whom, which requests can wait in a circle, and what breaking the circle leaves; and which statement waits for which open transaction, one by one |
| `ClientLoops`, `LockFreedom`, `Healing` | clients that repeat their requests; progress of writers in spite of stale entries; recovery once traffic stops |
| `TransactionIsolation`, `Decimals` | `k6-transaction-isolation.js` on top of the interleaved service |
| `Pagination`, `PagedExecution` | listing by page and the client's page walk, alone and against the interleaved service |
| `Startup`, `Reseeding`, `SeedLookup`, `Seeding` | migrations and seeding by many replicas (state machine), when a welcome message is added again, when a seeder does not find its author, and the seeding transaction as one replica runs it |
| `ImageReference`, `Deployed` | the two Kyverno expressions over image references, and the images of the manifests |
| `BodyLimit`, `Telemetry` | `app/middleware.py` and `app/telemetry.py` |
| `Sets` | sizes of finite sets |

Databases, cache and HTTP are reduced to what the handlers rely on. Each cache call is one atomic
step, and so is each statement, except that an author's insert, update and delete first takes its
row and then, holding it, waits for the index entry or the foreign-key check. A statement sees the
committed rows and its own transaction's writes; an UPDATE or DELETE that has found its row waits
for the row's lock and looks again; locks are held to the end of the transaction; unique and
foreign-key rules, the integer bound and U+0000 are checked by the statement. Ids and timestamps
that the database draws are parameters, ids are never reused, and their order stands for the order
of UUIDs. Any call may raise: the transaction rolls back, an eviction still owed never happens, and
the client is answered 500. A process may also die at any point, and then nobody is answered.

Fields named "history" in the states (the clock, every committed version, what each request asked,
the log of committed requests, the eviction record) are read by no handler; the theorems are stated
in terms of them.

## Where the code and its documentation differ

The model follows the code. The first three statements of the documentation hold only with a
condition or go beyond what the code does; the rest are corners worth knowing.

- `app/cache.py` says that entries are evicted after a successful update or delete. The code also
  evicts after a refused PATCH and after a DELETE that found nothing, and the progress results rest
  on that. And the eviction after a success may raise: then the client is answered 500, the row is
  changed and the entry stays (`RequestTheorems.FailedEvictionKeepsChange`).
- `app/seed.py` says that exactly one welcome message is created. A second one is committed exactly
  when a replica counts an empty table after the first (`Reseeding.SecondWelcomeExactly`), and
  `Reseeding.SecondWelcomeHappens` is an execution in which it is. With no message deleted there is
  one at most (`Startup.OneWelcomeEver`), and at any time there is one at most
  (`Startup.OneWelcomeAtATime`).
- `README.md` (lines 954-956) says that paging is stable. The order is, and no row is skipped while
  no message is deleted between the first and the last statement of the walk
  (`PagedExecution.NoMessageIsSkipped`). A delete between two pages skips a row iff the deleted one
  was on a page already read and there was more to read (`Pagination.DeleteSkipsExactly`); an insert
  repeats one iff the new row comes before the offset and the table reached that far
  (`Pagination.InsertRepeatsExactly`).
- A cached copy keeps the author's name and email of when it was loaded, since updating an author
  evicts no message. `OldAnswers.OldExactly` has the answers that this makes old.
- A PATCH may be answered 409 although at no moment of it the message was there with another
  version: if it did not exist at the update, and was created with version 0, the submitted one,
  before the check (`RefusalTheorems.RefusedPatchInPlace`, `LateCreation.ConflictOutOfPlace`). A
  client that has read the message cannot meet this (`RefusalTheorems.VersionOfAnAnswer`).
- A seeder that has made sure of the system author does not find it if a client deletes the author
  or changes its email just then (`SeedLookup.LookupFailsExactly`, `SeedLookup.LookupFails`).
- Text with U+0000 passes validation, PostgreSQL does not store it, and the client is answered 500
  (`Relational.NulIsRefused`).
- Author updates that pass emails around in a circle wait for each other until PostgreSQL fails
  one of them; they are the only requests that can (`Deadlock.CycleExactly`).
- Normalising an image reference twice is the same as once exactly when its last path segment has
  at most one colon (`ImageReference.IdempotentExactly`).

## Model

| member | source | states |
|---|---|---|
| Validation.StripIsTheCore | app/schemas.py:29-35 | However a string is cut into whitespace, a trimmed non-empty core and whitespace, trimming answers that core |
| Validation.CleanExactly | app/schemas.py:29-35 | A value is accepted as a text iff it is that text, trimmed, non-blank and within its limit, wrapped in whitespace; so nothing invalid is stored and nothing storable is refused |
| Validation.CleanIdempotent | app/schemas.py:29-35 | A stored value submitted again is stored as it is |
| Validation.EmailExactly | app/schemas.py:16-42 | The pattern, read as a backtracking matcher with Python's `$`, accepts a trimmed string iff it has no whitespace, exactly one '@' with something before it, and a '.' strictly inside what follows |
| Validation.RepeatMatches | app/schemas.py:16 | A repeated class matches iff some non-empty prefix is in the class and the rest of the pattern matches the rest |
| TextRules.BlankIsRefused | app/schemas.py:29-35 | A text of nothing but Python's whitespace characters, written out one by one, is refused |
| TextRules.CoreIsKept | app/schemas.py:29-35 | Such characters around a core that neither starts nor ends with one leave exactly the core, if it is within the limit, and a longer core is refused |
| TextRules.CoreExists | app/schemas.py:30 | Every string is one or the other: blank, or such a core in whitespace |
| TextRules.AddressIsKept | app/schemas.py:16-42 | Around an address: the core is kept iff it has at most 100 characters, none of them whitespace, exactly one '@', not in front, and a '.' strictly inside what follows it; else it is refused |
| Relational.CleanRequestIsValid | app/schemas.py:29-82 | Whatever passes validation has only valid fields, and a request with valid fields passes unchanged |
| Relational.ServeKeepsSound | app/services/messages.py:50-136 | Served one at a time without a cache and with every call doing its work, each request keeps foreign keys, unique emails and valid texts; a refused one changes nothing; 500 happens iff a text that gets to the database has U+0000 or the next version leaves the integer column |
| Relational.NulIsRefused | app/schemas.py:29-35 | Content `a\0b` passes validation, and a POST by a known author and a PATCH with it are both answered 500 with the tables unchanged |
| Endpoints.Get | app/services/messages.py:24-61 | With no cache, GET of a message answers 200 with its id, title, content, creation time and version and its author's id, name, email and creation time, each as in the tables; or 404; and changes nothing |
| Endpoints.Post | app/services/messages.py:65-82 | POST of a message: 400 for a title over 100 or a content over 1000 characters or a blank one, 404 for an unknown author, 500 for U+0000; else the row has the trimmed texts, the author, the time drawn and version 0, nothing else changes, and 201 shows that row and its author |
| Endpoints.Patch | app/services/messages.py:85-126 | PATCH of a message: 400, 500, 404, 409 each in its case; else the row has the submitted content, the submitted title or else the old one, the next version, and author and creation time as they were, nothing else changes, and 200 shows that row and its author |
| Endpoints.Delete | app/services/messages.py:129-136 | DELETE of a message removes just that row with 204, or changes nothing with 404 |
| Endpoints.PostAuthor | app/services/authors.py:70-82 | POST of an author: 400, 500, and 409 iff an author has the email; else the row has the trimmed name and email and the time drawn, nothing else changes, and 201 shows it |
| Endpoints.PatchAuthor | app/services/authors.py:85-115 | PATCH of an author: 400, 500, 404, and 409 iff another author has the email; else name and email are the submitted ones or else the old ones, the creation time stays, nothing else changes, and 200 shows that row |
| Endpoints.RemoveAuthor | app/services/authors.py:118-132 | DELETE of an author: 404, 409 iff some message is by it, else 204 and just that row is gone |
| Service.GetMessage | app/services/messages.py:50-62 | The answer is the cached copy if there is one and else that of the service without a cache; a miss that finds the row fills the cache, a 404 does not |
| Service.CreateMessage | app/services/messages.py:65-82 | With another request's commits between look-up and insert, gives what the service without a cache gives on the tables as the insert finds them: 404 when the author is gone by then, 500 for text the database refuses, else 201; the answer differs at most in the author's name and email |
| Service.UpdateMessage | app/services/messages.py:85-126 | Leaves the tables and gives the answer of the service without a cache, and the entry is gone after 200, 409 and 404 alike, and untouched when the handler fails |
| Service.DeleteMessage | app/services/messages.py:129-136 | Same, and the entry is gone whether or not the row was there |
| Service.CreateAuthor | app/services/authors.py:70-82 | 409 for a taken email with the tables unchanged, else exactly that author is added |
| Service.UpdateAuthor | app/services/authors.py:85-115 | 404, 409 or the changed author; an empty change commits nothing and still answers 404 for an unknown id |
| Service.DeleteAuthor | app/services/authors.py:118-132 | 409 for an author with messages, 404 for an unknown one, else only that author is removed |
| Service.Handle | app/services/messages.py:50-136 | A request as it arrives, 400 included, takes tables and cache to what `CachedServe` says |
| Service.StillCoherent | app/services/messages.py:122-136 | Every request keeps each cached copy equal to its row as it is now, up to the author's name and email, and exactly equal unless an author is updated |
| Service.CachedRefinesPlain | app/services/messages.py:50-136 | For every sequence of whole requests from any coherent cache, the cached service leaves the same tables and gives the same status, id, title, content, createdAt, version and author id as the service with no cache |
| OldAnswers.Origin | app/services/messages.py:54-61 | Told from the requests and the tables of the service with no cache alone: a message has an entry iff it had one from the start or was read and found since, with no PATCH or DELETE that got as far as the eviction in between; and the copy is the one of the first such read |
| OldAnswers.OldExactly | app/services/authors.py:85-115 | An answer of the cached service differs from that of the service with no cache iff it is a GET of a message whose copy, of the first read since its last eviction or of the start, has another author name or email than the message has now |
| OldAnswers.EqualUntilAuthorUpdate | app/services/authors.py:85-115 | So from exact copies on all answers are equal until an author is updated |
| OldAnswers.FreshServiceRefinesPlain | app/services/messages.py:50-136 | From an empty cache, with nothing assumed of the entries: the same tables, the same answers up to author name and email, a differing answer iff it is such a GET, and none before the first author update |
| Service.OldAuthorNameIsServed | app/services/authors.py:85-115 | It happens: over any tables, read, rename, read answers the old name from the cache and the new one without |
| ProtocolCommits.StepKeeps | app/services/messages.py:50-136 | Every step of every handler, and a raising call or a crash at any stage, keeps the invariant of the interleaved service |
| ProtocolCommits.ReachableIsOk | app/services/messages.py:50-136 | The invariant holds in every state of every execution |
| ProtocolTheorems.WritesAreSerialisable | app/services/messages.py:65-136 | In every interleaving the committed tables are what serving the committed requests one by one, in commit order and with no cache, leaves, and each of them succeeds there |
| ProtocolTheorems.TablesStaySound | migrations/versions/0001_initial_schema.py:38-60 | In every interleaving each committed message has a committed author, emails are unique and every stored text is valid, races of create-message and delete-author included |
| ProtocolTheorems.NoLostUpdateRun | app/services/messages.py:94-106 | In every interleaving each committed PATCH made exactly the version after the one it submitted out of the row it submitted it for, with the submitted content, the submitted title or else the old one, and author and creation time as they were; every later version was made by a PATCH, and no two PATCHes committed for one version of one message |
| ProtocolTheorems.BodiesWereCommitted | app/services/messages.py:54-61 | Every cache entry and every message in a reply, however stale, is one committed version of that message with author fields that were committed together |
| ProtocolTheorems.StaleExactly | app/services/messages.py:54-62 | An entry disagrees with the committed row, or has none, iff some PATCH or DELETE of it committed after the entry was loaded; and every such commit's eviction came before the entry was set, is still to come, or was lost as its call raised or its process died |
| SlowReader.RaceLeavesStale | app/services/messages.py:54-61 | It happens: from any state at rest, for any message with no entry and room for a version, a reader that loads before a PATCH and fills after its eviction leaves an entry one version behind the row |
| ProtocolTheorems.CommittedPatchAnswers | app/services/messages.py:122-126 | Once a PATCH has committed, its re-read has found the row, so the assertion cannot fail, and the answer has the submitted content and title and the next version |
| ProtocolTheorems.RefusedPatchIsRight | app/services/messages.py:108-120 | 404 iff the row was gone at the check; 409 iff it was there, and then, for a version that had been committed when the request came, the row had passed it |
| ProtocolTheorems.ReadVersionsAreKnown | app/services/messages.py:85-106 | A client that submits a version out of any answer it got submits one that had been committed |
| RequestTheorems.FailsExactlyWhenRaised | app/telemetry.py:84-90 | In every interleaving a step sends its request to 500 iff the call it makes raises, by itself or as the database refuses U+0000 or a version out of range; a missing author or a re-read that finds nothing never does |
| RequestTheorems.ServerErrorExactly | app/telemetry.py:84-90 | A request is answered 500 iff one of its calls raised between its start and its answer |
| RequestTheorems.RefusedChangesNothing | app/services/messages.py:65-136 | In every interleaving a request answered 400, 404 or 409 has changed no row; one answered 500 has changed a row iff the call that raised came after its commit; and without a commit of its own none of its steps touches the tables |
| RequestTheorems.FailedEvictionKeepsChange | app/cache.py:73-76 | Whenever a PATCH is about to commit, its commit, a raising eviction and the close can follow: the client is answered 500, the row has the next version, the cache is as before |
| RequestTheorems.GoneForGood | app/services/messages.py:129-136 | A committed message that is gone never comes back under its id |
| AnswerTheorems.AnswersAreSerial | app/services/messages.py:65-136 | Strict serialisability with answers: each request answered 200, 201 or 204, reads apart, has a place in the commit order, not before its start, that holds its validated form, and the serial service with no cache gives the same answer there up to author name and email |
| RefusalTheorems.EveryAnswerHasItsPlace | app/services/messages.py:50-136 | Every answer but 500, in every execution: a request that commits a change is answered as at its place in the commit order; any other is answered 400 for failing validation, or as the service with no cache would at some moment while it was in flight, or from the entry there was at some such moment, or is a PATCH whose message was created meanwhile |
| RefusalTheorems.RefusedPatchInPlace | app/services/messages.py:94-120 | A PATCH answered 404 or 409 is answered as the service with no cache would at some moment while it was in flight, except exactly if it is 409 for version 0 of a message that had never been there at the update and was there with version 0 at the check |
| LateCreation.ConflictOutOfPlace | app/services/messages.py:94-120 | That exception happens: from any state at rest with an author, a POST between update and check makes the PATCH a 409 that is right in no state of the run |
| RefusalTheorems.VersionOfAnAnswer | app/services/messages.py:94-126 | A client submits a version out of any answer it got: 409 means the row had passed that version, 404 that the message is gone for good, both while the request was in flight and both in place; success means its own step took the row from that version to the next |
| Deadlock.BlockedExactly | app/services/authors.py:96-105 | A request in flight can take its next step iff it waits for no other request |
| LockTable.MessageWrites | app/services/messages.py:94-136 | A PATCH or DELETE of a message whose row it has found waits exactly for open transactions that have inserted, updated or deleted that row |
| LockTable.MessageInsert | app/services/messages.py:65-82 | The insert of a message waits exactly for open transactions that delete its author or change the author's email, and not for one that changes the name |
| LockTable.EmailEntries | migrations/versions/0001_initial_schema.py:38-39 | Entering an email waits exactly for open transactions that add it or give it up |
| LockTable.AuthorUpdate | app/services/authors.py:96-105 | An author update waits exactly for open transactions that have the author's row, and if it changes the email also for open inserts of messages by the author and for whoever has the old email's entry |
| LockTable.AuthorDelete | app/services/authors.py:118-132 | An author delete waits exactly for open transactions that have the author's row or email entry or have inserted a message by the author |
| Deadlock.WaitingEnds | app/services/authors.py:96-105 | Whoever waits, following who waits for whom ends at a request that can go on or in a circle |
| Deadlock.CycleExactly | app/services/authors.py:96-105 | In every state of every execution requests wait for each other in a circle iff they are author updates that each hold their row and want the email the next one is giving up; so no message request and no author create or delete is ever in one |
| Deadlock.MessagesGoOn | app/services/messages.py:85-136 | A read, PATCH or DELETE of a message that waits, waits for a request that can go on |
| Deadlock.DropsOut | app/services/authors.py:106-110 | When the update that gives up the email has dropped out, the one that wants it goes on and is answered 409, and nobody else moves |
| Deadlock.AbortUnwinds | app/services/authors.py:106-110 | When the database fails one request of a circle of any length, it is answered 500, the others can all go on in turn and are answered 409, and the tables are unchanged |
| Deadlock.SwapDeadlocks | app/services/authors.py:96-105 | From any state at rest with two authors, two updates that give each the other's email reach, after two steps each, a state where they wait for each other and neither can go on |
| ClientLoops.FollowKeeps | k6-transaction-isolation.js:61-88 | Whatever the step, clients that loop read-then-PATCH stay in their loop and the message stays, the other requests leaving it alone |
| LockFreedom.WritersProgress | app/services/messages.py:108-124 | From any state of any execution, N clients that loop read-then-PATCH on a live message, none cut short between a conflict and its eviction, meet at most N(F+1) conflicts before the next commit, F being the readers between load and cache write; and with no client going away and no call of theirs raising they take at most N(9F+20) steps |
| LockFreedom.ClientMeasure | app/services/messages.py:50-126 | Within a stretch without commits every conflict uses up one of the conflicts a client has left, and every other step of it lowers its distance to the end of its round, whatever the other processes do |
| LockFreedom.StepStaleness | app/services/messages.py:54-61 | Only a slow reader's old copy can make the cache stale, and doing so uses the copy up |
| Healing.GetAlone | app/services/messages.py:50-62 | Alone, a read ends in 200 with the cached copy if there is one and else the committed row, and writes no row |
| Healing.PatchAlone | app/services/messages.py:85-126 | Alone and with text the database takes, a PATCH with the committed version ends in 200 with the next one, any other in 409 or 404, and either way the entry is cleared |
| Healing.UnstorablePatchAlone | app/services/messages.py:94-106 | Alone, a PATCH whose text has U+0000 ends in 500 with row and entry as they were |
| Healing.QuiescentHealing | app/services/messages.py:50-126 | From any reachable state with nobody else in flight, read then PATCH is answered 200 iff what was read was current; otherwise 409, and the same once more is answered 200 with the next version |
| Healing.DeletedEntryIsCleared | app/services/messages.py:108-136 | From any reachable quiet state a DELETE of a deleted message, and a PATCH whose text has no U+0000, is answered 404 and clears the leftover entry, so the next read is answered 404 too; a PATCH with U+0000 is answered 500 and leaves the entry |
| Decimals.ParseDecimal | k6-transaction-isolation.js:68-73 | Parsing the printed form of a number gives it back |
| Decimals.LeadingDigits | k6-transaction-isolation.js:68 | `parseInt` reads the leading digits as far as they go, and nothing if there are none |
| Decimals.ValuePlaces | k6-transaction-isolation.js:68 | Each digit has its value, and each place counts ten times the next |
| TransactionIsolation.SetupIsReady | k6-transaction-isolation.js:40-59 | The commit of the script's own POST, with clients not started and nobody else writing to the new id, leaves a state from which the counter results hold |
| TransactionIsolation.CounterEqualsVersion | k6-transaction-isolation.js:13-88 | In every state of every interleaving of the script the committed content is the committed version, which is the number of PATCHes answered 200 plus those committed and still to be answered, or cut off by a failing eviction or a dying process before |
| TransactionIsolation.EveryCopyIsCounted | k6-transaction-isolation.js:13-17 | Every copy in the cache or in a reply, however stale, has content equal to version |
| TransactionIsolation.HistoryMove | app/services/messages.py:94-106 | A live message's history grows only by the commit of a PATCH of it, and then by exactly that row |
| TransactionIsolation.Teardown | k6-transaction-isolation.js:95-110 | The polling loop settles on the first answer that agrees with the answer before it, failures skipped, or else on the last; the check passes iff content and version are then equal numbers, and on reads of a counter iff any read was answered |
| Pagination.OrderedLists | app/services/messages.py:35-45 | Ordered by creation time and id, both descending, a table lists every row exactly once, each pair in strict order |
| Pagination.PlaceIsRank | app/services/messages.py:40 | A row stands in the listing at the number of rows before it |
| Pagination.OnPage | app/services/messages.py:38-44 | A page has exactly the rows whose rank lies between offset and offset + limit |
| Pagination.Walk | EXAMPLES.md:194-202 | The client's loop lists what the recursive walk `WalkFrom` lists over the same tables, and ends when it does |
| Pagination.WalkEndsAt | EXAMPLES.md:194-202 | A walk has listed the pages up to the first whose end reaches the total answered with it, and ends with that one |
| Pagination.WalkSkipsNothing | EXAMPLES.md:194-202 | While rows are only inserted and updated, a walk that ends has listed every message that was there when it began, and nothing that was never there |
| Pagination.FixedWalk | EXAMPLES.md:194-202 | On a table that stays as it is a walk ends and lists every row exactly once, in order |
| Pagination.SkippedExactly | README.md:954-956 | When a row of any rank is deleted between two pages, the walk skips exactly the row at the offset, and that iff the deleted one was in front of it |
| Pagination.DeleteSkipsExactly | README.md:954-956 | Some row is skipped iff the deleted row's rank is below the offset and the offset is below the number of rows |
| Pagination.DeleteSkips | README.md:954-956 | So a delete of the first row makes every later page miss the first row of page two, for any table longer than a page |
| Pagination.RepeatedExactly | README.md:954-956 | When a row of any rank is inserted between two pages, the walk repeats exactly the last row before the offset, and that iff the new one ranks before the offset |
| Pagination.InsertRepeatsExactly | README.md:954-956 | Some row is repeated iff the new row's rank is below the offset and there were that many rows |
| Pagination.InsertRepeats | README.md:954-956 | So a newer row inserted after page one makes page two repeat the last row of page one |
| PagedExecution.WalkedTablesOnlyGrow | app/services/messages.py:35-46 | Whatever an execution interleaves with a walk, also between the two statements of a page, the tables it reads only gain rows and keep creation times as long as no message is deleted between the walk's first statement and its last |
| PagedExecution.NoMessageIsSkipped | README.md:954-956 | End to end: in every execution that deletes no message between the walk's first statement and its last, a page walk that ends has listed every message that was committed when it began, and every one it lists was committed |
| Startup.AtMostOneInside | migrations/env.py:33-44 | In every interleaving of starting, failing and dying replicas at most one is inside the migration and one inside the seeding, and a lock is held iff its holder is inside |
| Startup.SchemaCreatedOnce | migrations/env.py:27-42 | The schema is created at most once, and no replica gets past the migration before it is there |
| Startup.FailedMigrationUnlocks | migrations/env.py:38-43 | A migration that fails leaves schema and tables alone, and the step after it frees the lock |
| Startup.DyingFreesLock | app/seed.py:18-38 | A replica that dies inside, or whose seeding fails, frees its lock at once and leaves no row |
| Startup.NobodyIsStuck | migrations/env.py:33-44 | A replica on its way up can take its next step, or the holder of the lock it waits for can |
| Startup.OneWelcomeAtATime | app/seed.py:18-38 | Whatever clients insert, change and delete, at most one of the seeders' welcome messages is in the table, and the tables stay sound |
| Startup.OneWelcomeEver | app/seed.py:18-38 | With no message deleted, at most one welcome message is ever inserted and the table is never empty after a seeder has committed |
| Reseeding.SeedsExactlyWhenEmpty | app/seed.py:18-38 | A seeder that gets from its count to its commit adds a welcome message iff the count found no message, and then exactly one |
| Reseeding.SecondWelcomeExactly | app/seed.py:18-38 | In every execution a second welcome message has been committed iff some replica counted an empty table after a welcome had been committed, and then committed |
| Reseeding.StartsAndSeeds | app/seed.py:18-38 | From any state with no lock held and no message, a replica that starts gets up by itself and adds one more welcome message, with the title and content of the source, version 0 and an author with the system email, whether the schema and the system author are there or not |
| Reseeding.SecondWelcomeHappens | app/seed.py:18-38 | An execution with two welcome messages: seed, delete, start again |
| SeedLookup.LookupFailsExactly | app/seed.py:24-38 | In every execution a seeder about to look the system author up, or to refer to it, does not find it iff after the seeder's own last statement a client deleted that author, or gave it another email before the look-up, and nobody brought it back |
| SeedLookup.SeedingFindsAuthor | app/seed.py:24-38 | So every look-up of a seeder and its insert's reference succeed as long as no client takes the author away just then |
| SeedLookup.LookupFails | app/seed.py:24-38 | It happens: an execution in which a client deletes the system author between a seeder's insert and its look-up, and the seeding fails |
| Seeding.SeedInitialMessage | app/seed.py:18-38 | A table with messages is left alone; an empty one gets one message by the author with the system email, who is created only if missing; tables stay sound |
| ImageReference.SplitEnds | k8s/policies/rules/restrict-image-repositories.yaml:56-58 | `split` has as first part what is before the first separator and as last part what is behind the last, and one part iff there is none |
| ImageReference.DropsTagAndDigest | k8s/policies/rules/restrict-image-repositories.yaml:53-67 | For every well-formed repo[:tag][@digest] the normaliser drops exactly tag and digest |
| ImageReference.KeepsRegistryPort | k8s/policies/rules/restrict-image-repositories.yaml:50-62 | host:port/path with any tag and digest normalises to host:port/path |
| ImageReference.TextOfParse | k8s/policies/rules/restrict-image-repositories.yaml:56-58 | Every string is the text of the repository, tag and digest it is cut into, and is well formed iff its last segment has one colon at most |
| ImageReference.ParseOfText | k8s/policies/rules/restrict-image-repositories.yaml:56-58 | Every well-formed reference is what its text is cut into |
| ImageReference.IdempotentExactly | k8s/policies/rules/restrict-image-repositories.yaml:53-67 | Normalising again changes nothing iff the last segment has no second colon |
| ImageReference.NormalisesTwice | k8s/policies/rules/restrict-image-repositories.yaml:53-67 | It does not hold at `a:b:c`: once gives `docker.io/library/a:b`, twice `docker.io/library/a` |
| ImageReference.QualifyExactly | k8s/policies/rules/restrict-image-repositories.yaml:59-64 | A name is completed to a repository written in full iff it is one of its three names |
| ImageReference.AllowlistExactly | k8s/policies/rules/restrict-image-repositories.yaml:30-69 | A string normalises to an allowed repository r iff, cut at the first '@' and then at a last ':' in its last segment, it is r, or r without `docker.io/`, or r without `docker.io/library/` |
| ImageReference.AdmittedExactly | k8s/policies/rules/restrict-image-repositories.yaml:28-69 | A pod is admitted iff each image of its containers and init containers is such a name of some allowed repository |
| ImageReference.PinnedExactly | k8s/policies/audit-only/disallow-latest-tag.yaml:36-41 | The pin check holds for a string iff it has a digest, or a tag that is not `latest` |
| Deployed.QualifyBySegments | k8s/policies/rules/restrict-image-repositories.yaml:59-64 | A name of one segment is completed with `docker.io/library/`; one of several with `docker.io/`, unless its first segment has a '.' or a ':' or is `localhost` |
| Deployed.DeployedAreFine | k8s/deployment.yaml:33-86 | Each image that the manifests name is admitted, and pinned but for the service's fallback tag |
| Deployed.AllowedParts | k8s/policies/rules/restrict-image-repositories.yaml:30-46 | These fourteen repositories are allowed and no others |
| BodyLimit.LimitedReceive.Receive | app/middleware.py:37-44 | A read fails iff the bytes up to and including its part exceed the limit; otherwise the message passes unchanged |
| BodyLimit.Handle | app/middleware.py:21-46 | Other traffic passes; a request is refused up front iff the last Content-Length is digits with a value over the limit, and else is read part by part |
| BodyLimit.DeclaredExactly | app/middleware.py:26 | The declared length is the value of the last header named content-length, and empty without one |
| BodyLimit.DeliversPrefix | app/middleware.py:35-46 | For every message sequence the application gets an unchanged prefix of the body, at most the limit, and all of it with no failed read iff the body is within the limit |
| BodyLimit.FailsFromTheFirst | app/middleware.py:37-44 | From the first part that crosses the limit every read of a part fails, and other messages pass |
| BodyLimit.BothRefuseTheSame | app/middleware.py:26-44 | When Content-Length (section 8.6 of RFC 9110) is the true total, up-front and streaming refusal reject the same requests |
| Telemetry.RequestMetricsMiddleware.Forward | app/telemetry.py:75-80 | Every message is passed on in order, and status and started are those of the last response start |
| Telemetry.PointTells | app/telemetry.py:66-97 | A request is counted iff it is HTTP and not under /health/; its point has its verb, its route template or `unmatched`, and the status of the last response start, or 500 if there is none or the application raised |
| Telemetry.CountedWithLastStart | app/telemetry.py:75-97 | Wherever the last response start is among what was sent, the status counted is the one it has, unless the application raised |
| Telemetry.StartsCount | app/telemetry.py:75-80 | A response counts as started by exactly its start messages |
| Telemetry.RequestMetricsMiddleware.Call | app/telemetry.py:66-108 | A counted request adds exactly one point, also when it fails or is cancelled, with the status of the last response start, or 500 without one or after a failure, and an error point iff that is 400 or more; one start in means at most one out; a failure before any start sends a 500 |
| Telemetry.P99IsOrderStatistic | app/telemetry.py:134-138 | The value is a kept sample, at most ceil((m-1)/100) of the m samples exceed it and at most 99(m-1)/100 are below it |
| Telemetry.WindowIsLast | app/telemetry.py:117 | What is kept is the last 3000 samples, or all of them |
| Telemetry.LoopLagMonitor.Sample | app/telemetry.py:116-132 | After any number of samples the window is the last 3000 of them, none negative |
| Telemetry.LoopLagMonitor.Read | app/telemetry.py:134-138 | The reading is 0 for an empty window, else a kept sample that at most 30 exceed |
| Telemetry.QueryStats.TakeAverage | app/telemetry.py:152-155 | Answers the average of what is held and holds nothing after |
| Telemetry.HeldSince | app/telemetry.py:141-155 | What is held is the sum and the number of the queries since the last collection, and the next average is their quotient, or zero if there were none |
| Telemetry.NothingIsLost | app/telemetry.py:141-155 | Over any sequence of queries and collections, the averages times their counts and what is still held add up to everything added |

## Left out

- JSON and Pydantic decoding, SQLAlchemy, asyncpg, the Hazelcast client and its threads and spans: JSON is the identity and each call is one step.
- The cache connection (`connect`, `shutdown`, `connected`). A cache call that raises is taken not to have had its effect, and a commit that raises not to have committed.
- Lock queues and the deadlock timer: who gets a freed lock first is open, and PostgreSQL failing a request of a circle is one of its calls raising.
- Two waits that cannot change the answer: for an email whose owner's row is being changed without the email, and, deleting an author, for a message that is being deleted while another one is in the way. The request is refused at once, as it is after the wait.
- The locks a transaction keeps between a failed statement and its rollback: they are free as soon as the statement has failed.
- Listing requests and `GET /authors/{id}` inside the interleaved service: they only read. Listing is modelled over the table states a walk meets.
- Startup.OneWelcomeAtATime: clients' requests are single steps there, because only what they commit matters to a seeder; their own interleaving is in `Protocol`.
- TransactionIsolation.Teardown: the content is parsed as `parseInt` parses a string with no sign and no leading space; the counter never has either.
- Telemetry.P99IsOrderStatistic: 0.99 is 99/100 and durations are real numbers, so floating-point rounding is not modelled.
- Which status results when reading a body fails: FastAPI decides, only the failed read is stated.
- Postgres internals, the DDL itself, and extension creation: a migration either commits the schema or does not.
- Drain and readiness in `app/__main__.py` and `app/main.py`, error tables, OpenAPI editing, routers, health, settings, logging, tracing, the remaining manifests and k6 scripts: wiring and configuration with only easy members.
