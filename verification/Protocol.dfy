/** The running service: any number of requests, on any number of pods, over one pair of tables
    and one shared cache. Every await of a handler is one step.

    A database statement sees the rows committed so far plus its own transaction's writes, and
    row locks are held until the transaction ends. Both live in the process: a stage after a
    write carries the uncommitted row, and `Exclusive` and `Shared` say which locks a stage
    holds. A statement that would wait for a lock has no step until the lock is free.

    Any call may fail instead: the client is then answered 500. And any process may go away. */
module Protocol {
  import opened Validation
  import opened Relational

  type Pid = nat

  datatype Stage =
    | Idle
    // GET /messages/{id}
    | GetProbe(id: Id)
    | GetLoad(id: Id)
    | GetFill(id: Id, body: MessageOut, loadedAt: nat)
    // PATCH /messages/{id}; `read` records whether the submitted version had been committed
    | PatchUpdate(id: Id, edit: Edit, read: bool)
    | PatchReload(id: Id, edit: Edit, row: Message)
    | PatchCommit(id: Id, edit: Edit, row: Message, out: Option<MessageOut>)
    | PatchEvict(id: Id, edit: Edit, out: Option<MessageOut>, commit: nat)
    | PatchRollback(id: Id, edit: Edit, read: bool)
    | PatchHeal(id: Id, edit: Edit, read: bool)
    | PatchCheck(id: Id, edit: Edit, read: bool)
    // DELETE /messages/{id}
    | DropRow(id: Id)
    | DropCommit(id: Id, found: bool)
    | DropEvict(id: Id, deleted: Option<nat>)
    // POST /messages
    | PostAuthor(title: string, content: string, authorId: Id)
    | PostInsert(title: string, content: string, author: AuthorOut)
    | PostCommit(id: Id, row: Message, author: AuthorOut)
    // POST, PATCH and DELETE /authors; a statement that has its row may still have to wait for an
    // index entry or a foreign-key check, and holds the row meanwhile
    | AddAuthor(name: string, email: string)
    | AddIndex(id: Id, added: Author)
    | AddCommit(id: Id, added: Author)
    | ReadAuthor(id: Id)
    | EditAuthor(id: Id, newName: Option<string>, newEmail: Option<string>)
    | EditIndex(id: Id, newName: Option<string>, newEmail: Option<string>, before: Author)
    | EditCommit(id: Id, newName: Option<string>, newEmail: Option<string>, before: Author)
    | RemoveAuthor(id: Id)
    | RemoveCheck(id: Id, target: Author)
    | RemoveCommit(id: Id, removed: Option<Author>)
    // the session is closed, which rolls back what is still open, and then the answer goes out
    | Closing(reply: Reply)
    | Done(reply: Reply)

  /** What a row lock or an index entry lock is on. Deleting an author, or changing its email,
      needs the author's key; inserting a message shares it. */
  datatype Lock = MessageRow(id: Id) | AuthorRow(id: Id) | AuthorKey(id: Id) | EmailEntry(email: string)

  function Exclusive(st: Stage): set<Lock> {
    match st
    case PatchReload(id, _, _) => {MessageRow(id)}
    case PatchCommit(id, _, _, _) => {MessageRow(id)}
    case DropCommit(id, found) => if found then {MessageRow(id)} else {}
    case PostCommit(id, _, _) => {MessageRow(id)}
    case AddIndex(id, _) => {AuthorRow(id)}
    case AddCommit(id, a) => {AuthorRow(id), EmailEntry(a.email)}
    case EditIndex(id, name, email, before) => EditLocks(id, before, Changed(before, name, email))
    case EditCommit(id, name, email, before) =>
      EditLocks(id, before, Changed(before, name, email)) + NewEntry(before, Changed(before, name, email))
    case RemoveCheck(id, target) => RemoveLocks(id, target)
    case RemoveCommit(id, removed) => if removed.Some? then RemoveLocks(id, removed.value) else {}
    case _ => {}
  }

  /** An update locks its row, and with a new email also gives up the row's key and old entry. */
  function EditLocks(id: Id, before: Author, after: Author): set<Lock> {
    if before.email == after.email then {AuthorRow(id)}
    else {AuthorRow(id), AuthorKey(id), EmailEntry(before.email)}
  }

  function NewEntry(before: Author, after: Author): set<Lock> {
    if before.email == after.email then {} else {EmailEntry(after.email)}
  }

  function RemoveLocks(id: Id, a: Author): set<Lock> {
    {AuthorRow(id), AuthorKey(id), EmailEntry(a.email)}
  }

  function Shared(st: Stage): set<Lock> {
    match st
    case PostCommit(_, row, _) => {AuthorKey(row.authorId)}
    case _ => {}
  }

  // ---- state -------------------------------------------------------------------------------

  /** A cached body, with the times it was loaded from the database and put in the cache. */
  datatype Entry = Entry(body: MessageOut, loadedAt: nat, setAt: nat)

  /** What became of the eviction that follows a commit. */
  datatype Eviction = Pending | At(time: nat) | Lost

  /** A committed PATCH or DELETE of a message. */
  datatype Commit = Commit(id: Id, at: nat, owner: Pid, eviction: Eviction)

  datatype LogEntry = LogEntry(request: Request, draw: Draw)

  datatype State = State(
    db: Tables,
    cache: map<Id, Entry>,
    procs: map<Pid, Stage>,
    // History, which no handler reads: a clock, every committed version of every message, every
    // author row ever committed, the commits of PATCH and DELETE, the committed requests in
    // commit order, for each process whose current request has committed a change its place in
    // that order, and the request each process last sent.
    clock: nat,
    history: map<Id, seq<Message>>,
    seen: set<AuthorOut>,
    commits: seq<Commit>,
    log: seq<LogEntry>,
    wrote: map<Pid, nat>,
    asked: map<Pid, Request>)

  const Empty := Tables(map[], map[])

  predicate Init(s: State) {
    s == State(Empty, map[], map[], 0, map[], {}, [], [], map[], map[])
  }

  function StageOf(s: State, p: Pid): Stage {
    if p in s.procs then s.procs[p] else Idle
  }

  /** No other process holds the lock exclusively, or at all. */
  predicate Free(s: State, p: Pid, k: Lock) {
    forall q | q in s.procs && q != p :: k !in Exclusive(s.procs[q])
  }

  predicate Unshared(s: State, p: Pid, k: Lock) {
    forall q | q in s.procs && q != p :: k !in Shared(s.procs[q])
  }

  predicate Known(s: State, id: Id, version: int) {
    id in s.history && 0 <= version < |s.history[id]|
  }

  // ---- one step of one process -------------------------------------------------------------

  function Goto(s: State, p: Pid, st: Stage): State {
    s.(procs := s.procs[p := st], clock := s.clock + 1)
  }

  // After its own commit or a failed statement a request has one more call to make before it is
  // answered, an eviction or the closing of the session, and that may raise. A session that has
  // only read is closed with its last statement, since a close that raises there shows as a
  // statement that raises.

  function Answer(s: State, p: Pid, status: int, payload: Payload): State {
    Goto(s, p, Done(Reply(status, payload)))
  }

  /** The session is closed before the answer. */
  function Close(s: State, p: Pid, status: int, payload: Payload): State {
    Goto(s, p, Closing(Reply(status, payload)))
  }

  function Refusal(s: State, p: Pid, status: int): State {
    Close(s, p, status, Nothing)
  }

  /** A validated request enters its handler. */
  function FirstStage(s: State, r: Request): Stage {
    match r
    case GetMessage(id) => GetProbe(id)
    case CreateMessage(title, content, authorId) => PostAuthor(title, content, authorId)
    case UpdateMessage(id, edit) => PatchUpdate(id, edit, Known(s, id, edit.version))
    case DeleteMessage(id) => DropRow(id)
    case CreateAuthor(name, email) => AddAuthor(name, email)
    case UpdateAuthor(id, name, email) =>
      if name.None? && email.None? then ReadAuthor(id) else EditAuthor(id, name, email)
    case DeleteAuthor(id) => RemoveAuthor(id)
  }

  function StartStep(s: State, p: Pid, r: Request): State {
    var s' := s.(wrote := s.wrote - {p}, asked := s.asked[p := r]);
    match CleanRequest(r)
    case None => Answer(s', p, 400, Nothing)
    case Some(clean) => Goto(s', p, FirstStage(s, clean))
  }

  // GET: the cache, then the database, then the cache again.

  function GetProbeStep(s: State, p: Pid, id: Id): State {
    if id in s.cache then Answer(s, p, 200, TheMessage(s.cache[id].body)) else Goto(s, p, GetLoad(id))
  }

  function GetLoadStep(s: State, p: Pid, id: Id): State {
    match Load(s.db, id)
    case NoRow => Answer(s, p, 404, Nothing)
    case NoAuthor => Answer(s, p, 500, Nothing)
    case Found(body) => Goto(s, p, GetFill(id, body, s.clock))
  }

  function GetFillStep(s: State, p: Pid, id: Id, body: MessageOut, loadedAt: nat): State {
    Answer(s.(cache := s.cache[id := Entry(body, loadedAt, s.clock)]), p, 200, TheMessage(body))
  }

  // PATCH: the guarded update, and either the re-read, commit and eviction, or the rollback,
  // eviction and existence check.

  predicate UpdateMatches(s: State, id: Id, edit: Edit) {
    id in s.db.messages && s.db.messages[id].version == edit.version
  }

  /** A text that cannot be sent fails at once. A statement whose condition holds for no committed
      row does not wait; one that has found a row waits for the row's lock. */
  function PatchUpdateStep(s: State, p: Pid, id: Id, edit: Edit, read: bool): State {
    if !StorableEdit(edit) then Refusal(s, p, 500)
    else if !UpdateMatches(s, id, edit) then Goto(s, p, PatchRollback(id, edit, read))
    else if edit.version == MAX_INT4 then Refusal(s, p, 500)
    else Goto(s, p, PatchReload(id, edit, Edited(s.db.messages[id], edit)))
  }

  /** The re-read sees the transaction's own uncommitted row. */
  function PatchReloadStep(s: State, p: Pid, id: Id, edit: Edit, row: Message): State {
    match Load(s.db.(messages := s.db.messages[id := row]), id)
    case NoRow => Goto(s, p, PatchCommit(id, edit, row, None))
    case NoAuthor => Refusal(s, p, 500)
    case Found(out) => Goto(s, p, PatchCommit(id, edit, row, Some(out)))
  }

  function Extended(history: map<Id, seq<Message>>, id: Id, row: Message): map<Id, seq<Message>> {
    history[id := (if id in history then history[id] else []) + [row]]
  }

  function PatchCommitStep(s: State, p: Pid, id: Id, edit: Edit, row: Message, out: Option<MessageOut>): State {
    Goto(
      s.(db := s.db.(messages := s.db.messages[id := row]),
         history := Extended(s.history, id, row),
         commits := s.commits + [Commit(id, s.clock, p, Pending)],
         log := s.log + [LogEntry(UpdateMessage(id, edit), Draw(0, 0))],
         wrote := s.wrote[p := |s.log|]),
      p, PatchEvict(id, edit, out, |s.commits|))
  }

  function Evicted(commits: seq<Commit>, k: nat, e: Eviction): seq<Commit> {
    if k < |commits| then commits[k := commits[k].(eviction := e)] else commits
  }

  function PatchEvictStep(s: State, p: Pid, id: Id, out: Option<MessageOut>, k: nat): State {
    var s' := s.(cache := s.cache - {id}, commits := Evicted(s.commits, k, At(s.clock)));
    match out
    case None => Answer(s', p, 500, Nothing)
    case Some(body) => Answer(s', p, 200, TheMessage(body))
  }

  function PatchHealStep(s: State, p: Pid, id: Id, edit: Edit, read: bool): State {
    Goto(s.(cache := s.cache - {id}), p, PatchCheck(id, edit, read))
  }

  function PatchCheckStep(s: State, p: Pid, id: Id): State {
    Answer(s, p, if id in s.db.messages then 409 else 404, Nothing)
  }

  // DELETE: the row, the commit, the eviction, found or not.

  function DropCommitStep(s: State, p: Pid, id: Id, found: bool): State {
    if !found then Goto(s, p, DropEvict(id, None))
    else
      Goto(
        s.(db := s.db.(messages := s.db.messages - {id}),
           commits := s.commits + [Commit(id, s.clock, p, Pending)],
           log := s.log + [LogEntry(DeleteMessage(id), Draw(0, 0))],
           wrote := s.wrote[p := |s.log|]),
        p, DropEvict(id, Some(|s.commits|)))
  }

  function DropEvictStep(s: State, p: Pid, id: Id, deleted: Option<nat>): State {
    var s' := s.(cache := s.cache - {id});
    match deleted
    case None => Answer(s', p, 404, Nothing)
    case Some(k) => Answer(s'.(commits := Evicted(s.commits, k, At(s.clock))), p, 204, Nothing)
  }

  // POST /messages: the author, the insert with its foreign-key check, the commit.

  function PostAuthorStep(s: State, p: Pid, title: string, content: string, authorId: Id): State {
    if authorId !in s.db.authors then Answer(s, p, 404, Nothing)
    else Goto(s, p, PostInsert(title, content, AuthorView(authorId, s.db.authors[authorId])))
  }

  function PostInsertStep(s: State, p: Pid, title: string, content: string, author: AuthorOut, d: Draw): State {
    if !Storable(title) || !Storable(content) then Refusal(s, p, 500)
    else if author.id !in s.db.authors then Refusal(s, p, 404)
    else Goto(s, p, PostCommit(d.newId, Message(title, content, author.id, d.now, 0), author))
  }

  function PostCommitStep(s: State, p: Pid, id: Id, row: Message, author: AuthorOut): State {
    Close(
      s.(db := s.db.(messages := s.db.messages[id := row]),
         history := Extended(s.history, id, row),
         log := s.log + [LogEntry(
           CreateMessage(row.title, row.content, row.authorId), Draw(id, row.createdAt))],
         wrote := s.wrote[p := |s.log|]),
      p, 201, TheMessage(MessageView(id, row, author)))
  }

  // The author endpoints: the row first, then the unique index or the foreign-key check, then
  // the commit.

  function AddAuthorStep(s: State, p: Pid, name: string, email: string, d: Draw): State {
    if !Storable(name) || !Storable(email) then Refusal(s, p, 500)
    else Goto(s, p, AddIndex(d.newId, Author(name, email, d.now)))
  }

  function AddIndexStep(s: State, p: Pid, id: Id, a: Author): State {
    if EmailTaken(s.db.authors, a.email) then Refusal(s, p, 409) else Goto(s, p, AddCommit(id, a))
  }

  function WithAuthor(s: State, id: Id, a: Author): State {
    s.(db := s.db.(authors := s.db.authors[id := a]), seen := s.seen + {AuthorView(id, a)})
  }

  function AddCommitStep(s: State, p: Pid, id: Id, a: Author): State {
    Close(
      WithAuthor(s, id, a).(
        log := s.log + [LogEntry(CreateAuthor(a.name, a.email), Draw(id, a.createdAt))],
        wrote := s.wrote[p := |s.log|]),
      p, 201, TheAuthor(AuthorView(id, a)))
  }

  function ReadAuthorStep(s: State, p: Pid, id: Id): State {
    if id !in s.db.authors then Answer(s, p, 404, Nothing)
    else Answer(s, p, 200, TheAuthor(AuthorView(id, s.db.authors[id])))
  }

  function EditAuthorStep(s: State, p: Pid, id: Id, name: Option<string>, email: Option<string>): State {
    if !StorableOption(name) || !StorableOption(email) then Refusal(s, p, 500)
    else if id !in s.db.authors then Answer(s, p, 404, Nothing)
    else Goto(s, p, EditIndex(id, name, email, s.db.authors[id]))
  }

  function EditIndexStep(
    s: State, p: Pid, id: Id, name: Option<string>, email: Option<string>, before: Author): State
  {
    if email.Some? && EmailTaken(s.db.authors - {id}, email.value) then Refusal(s, p, 409)
    else Goto(s, p, EditCommit(id, name, email, before))
  }

  function EditCommitStep(
    s: State, p: Pid, id: Id, name: Option<string>, email: Option<string>, before: Author): State
  {
    var a := Changed(before, name, email);
    Close(
      WithAuthor(s, id, a).(
        log := s.log + [LogEntry(UpdateAuthor(id, name, email), Draw(0, 0))],
        wrote := s.wrote[p := |s.log|]),
      p, 200, TheAuthor(AuthorView(id, a)))
  }

  function RemoveAuthorStep(s: State, p: Pid, id: Id): State {
    Goto(s, p, if id !in s.db.authors then RemoveCommit(id, None) else RemoveCheck(id, s.db.authors[id]))
  }

  function RemoveCheckStep(s: State, p: Pid, id: Id, target: Author): State {
    if Referenced(s.db, id) then Refusal(s, p, 409) else Goto(s, p, RemoveCommit(id, Some(target)))
  }

  function RemoveCommitStep(s: State, p: Pid, id: Id, removed: Option<Author>): State {
    if removed.None? then Answer(s, p, 404, Nothing)
    else
      Close(
        s.(db := s.db.(authors := s.db.authors - {id}),
           log := s.log + [LogEntry(DeleteAuthor(id), Draw(0, 0))],
           wrote := s.wrote[p := |s.log|]),
        p, 204, Nothing)
  }

  // ---- when a step can be taken ------------------------------------------------------------

  /** A message being deleted by an open transaction. */
  predicate BeingDropped(s: State, id: Id) {
    exists q | q in s.procs :: s.procs[q] == DropCommit(id, true)
  }

  predicate CanUpdate(s: State, p: Pid, id: Id, edit: Edit) {
    StorableEdit(edit) && UpdateMatches(s, id, edit) ==> Free(s, p, MessageRow(id))
  }

  predicate CanDrop(s: State, p: Pid, id: Id) {
    id in s.db.messages ==> Free(s, p, MessageRow(id))
  }

  /** The insert waits for a transaction that is deleting its author or changing its email. Ids
      are never reused. */
  predicate CanInsert(s: State, p: Pid, author: Id, d: Draw) {
    && Free(s, p, AuthorKey(author))
    && d.newId !in s.history && Free(s, p, MessageRow(d.newId))
  }

  predicate CanAdd(s: State, p: Pid, d: Draw) {
    (forall a | a in s.seen :: a.id != d.newId) && Free(s, p, AuthorRow(d.newId))
  }

  /** An entry that an open transaction is adding or giving up has to be waited for. */
  predicate CanEnter(s: State, p: Pid, email: string) {
    Free(s, p, EmailEntry(email))
  }

  predicate CanEdit(s: State, p: Pid, id: Id, name: Option<string>, email: Option<string>) {
    StorableOption(name) && StorableOption(email) && id in s.db.authors ==>
      var before := s.db.authors[id];
      var after := Changed(before, name, email);
      && (forall k | k in EditLocks(id, before, after) :: Free(s, p, k))
      && (before.email != after.email ==> Unshared(s, p, AuthorKey(id)))
  }

  predicate CanIndex(s: State, p: Pid, before: Author, after: Author) {
    before.email != after.email ==> CanEnter(s, p, after.email)
  }

  /** The delete waits for open inserts that refer to the author. */
  predicate CanRemove(s: State, p: Pid, id: Id) {
    id in s.db.authors ==>
      && (forall k | k in RemoveLocks(id, s.db.authors[id]) :: Free(s, p, k))
      && Unshared(s, p, AuthorKey(id))
  }

  /** Its foreign-key check waits when every message in its way is itself being deleted. */
  predicate CanCheck(s: State, id: Id) {
    Referenced(s.db, id) ==>
      exists m | m in s.db.messages :: s.db.messages[m].authorId == id && !BeingDropped(s, m)
  }

  predicate CanAdvance(s: State, p: Pid, d: Draw) {
    match StageOf(s, p)
    case Idle => false
    case Done(_) => false
    case PatchUpdate(id, edit, _) => CanUpdate(s, p, id, edit)
    case DropRow(id) => CanDrop(s, p, id)
    case PostInsert(title, content, author) => Storable(title) && Storable(content) ==> CanInsert(s, p, author.id, d)
    case AddAuthor(_, _) => CanAdd(s, p, d)
    case AddIndex(_, a) => CanEnter(s, p, a.email)
    case EditAuthor(id, name, email) => CanEdit(s, p, id, name, email)
    case EditIndex(_, name, email, before) => CanIndex(s, p, before, Changed(before, name, email))
    case RemoveAuthor(id) => CanRemove(s, p, id)
    case RemoveCheck(id, _) => CanCheck(s, id)
    case _ => true
  }

  function GetStep(s: State, p: Pid): State {
    match StageOf(s, p)
    case GetProbe(id) => GetProbeStep(s, p, id)
    case GetLoad(id) => GetLoadStep(s, p, id)
    case GetFill(id, body, t) => GetFillStep(s, p, id, body, t)
    case _ => s
  }

  function PatchStep(s: State, p: Pid): State {
    match StageOf(s, p)
    case PatchUpdate(id, edit, read) => PatchUpdateStep(s, p, id, edit, read)
    case PatchReload(id, edit, row) => PatchReloadStep(s, p, id, edit, row)
    case PatchCommit(id, edit, row, out) => PatchCommitStep(s, p, id, edit, row, out)
    case PatchEvict(id, _, out, k) => PatchEvictStep(s, p, id, out, k)
    case PatchRollback(id, edit, read) => Goto(s, p, PatchHeal(id, edit, read))
    case PatchHeal(id, edit, read) => PatchHealStep(s, p, id, edit, read)
    case PatchCheck(id, _, _) => PatchCheckStep(s, p, id)
    case _ => s
  }

  function DropStep(s: State, p: Pid): State {
    match StageOf(s, p)
    case DropRow(id) => Goto(s, p, DropCommit(id, id in s.db.messages))
    case DropCommit(id, found) => DropCommitStep(s, p, id, found)
    case DropEvict(id, deleted) => DropEvictStep(s, p, id, deleted)
    case _ => s
  }

  function PostStep(s: State, p: Pid, d: Draw): State {
    match StageOf(s, p)
    case PostAuthor(title, content, authorId) => PostAuthorStep(s, p, title, content, authorId)
    case PostInsert(title, content, author) => PostInsertStep(s, p, title, content, author, d)
    case PostCommit(id, row, author) => PostCommitStep(s, p, id, row, author)
    case _ => s
  }

  function AuthorStep(s: State, p: Pid, d: Draw): State {
    match StageOf(s, p)
    case AddAuthor(name, email) => AddAuthorStep(s, p, name, email, d)
    case AddIndex(id, a) => AddIndexStep(s, p, id, a)
    case AddCommit(id, a) => AddCommitStep(s, p, id, a)
    case ReadAuthor(id) => ReadAuthorStep(s, p, id)
    case EditAuthor(id, name, email) => EditAuthorStep(s, p, id, name, email)
    case EditIndex(id, name, email, before) => EditIndexStep(s, p, id, name, email, before)
    case EditCommit(id, name, email, before) => EditCommitStep(s, p, id, name, email, before)
    case RemoveAuthor(id) => RemoveAuthorStep(s, p, id)
    case RemoveCheck(id, target) => RemoveCheckStep(s, p, id, target)
    case RemoveCommit(id, removed) => RemoveCommitStep(s, p, id, removed)
    case _ => s
  }

  predicate InGet(st: Stage) {
    st.GetProbe? || st.GetLoad? || st.GetFill?
  }

  predicate InPatch(st: Stage) {
    || st.PatchUpdate? || st.PatchReload? || st.PatchCommit? || st.PatchEvict?
    || st.PatchRollback? || st.PatchHeal? || st.PatchCheck?
  }

  predicate InDrop(st: Stage) {
    st.DropRow? || st.DropCommit? || st.DropEvict?
  }

  predicate InPost(st: Stage) {
    st.PostAuthor? || st.PostInsert? || st.PostCommit?
  }

  predicate InAuthors(st: Stage) {
    || st.AddAuthor? || st.AddIndex? || st.AddCommit? || st.ReadAuthor?
    || st.EditAuthor? || st.EditIndex? || st.EditCommit?
    || st.RemoveAuthor? || st.RemoveCheck? || st.RemoveCommit?
  }

  function AdvanceStep(s: State, p: Pid, d: Draw): State {
    var st := StageOf(s, p);
    if InGet(st) then GetStep(s, p)
    else if InPatch(st) then PatchStep(s, p)
    else if InDrop(st) then DropStep(s, p)
    else if InPost(st) then PostStep(s, p, d)
    else if InAuthors(st) then AuthorStep(s, p, d)
    else if st.Closing? then Goto(s, p, Done(st.reply))
    else s
  }

  /** The commit whose eviction a stage still owes. */
  function Owed(st: Stage): Option<nat> {
    match st
    case PatchEvict(_, _, _, k) => Some(k)
    case DropEvict(_, deleted) => deleted
    case _ => None
  }

  /** A request is cut short: an open transaction rolls back, and an eviction still owed never
      happens. */
  function Abandon(s: State, p: Pid, st: Stage): State {
    var k := Owed(StageOf(s, p));
    Goto(if k.Some? then s.(commits := Evicted(s.commits, k.value, Lost)) else s, p, st)
  }

  /** The pod dies or the client goes away. */
  function CrashStep(s: State, p: Pid): State {
    Abandon(s, p, Idle)
  }

  /** What the client is answered when a call raises. */
  const ServerError := Reply(500, Nothing)

  /** The pending call to the database or the cache raises. */
  function FailStep(s: State, p: Pid): State {
    Abandon(s, p, Closing(ServerError))
  }

  // ---- runs --------------------------------------------------------------------------------

  datatype Action =
    | Start(p: Pid, request: Request)
    | Advance(p: Pid, draw: Draw)
    | Fail(p: Pid)
    | Crash(p: Pid)

  predicate InFlight(s: State, p: Pid) {
    p in s.procs && !s.procs[p].Idle? && !s.procs[p].Done?
  }

  predicate Enabled(s: State, a: Action) {
    match a
    case Start(p, _) => StageOf(s, p).Idle? || StageOf(s, p).Done?
    case Advance(p, d) => CanAdvance(s, p, d)
    case Fail(p) => InFlight(s, p)
    case Crash(p) => p in s.procs
  }

  function Apply(s: State, a: Action): State {
    match a
    case Start(p, r) => StartStep(s, p, r)
    case Advance(p, d) => AdvanceStep(s, p, d)
    case Fail(p) => FailStep(s, p)
    case Crash(p) => CrashStep(s, p)
  }

  predicate Step(s: State, a: Action, s': State) {
    Enabled(s, a) && s' == Apply(s, a)
  }

  /** A run: states with the actions between them. */
  predicate IsRun(states: seq<State>, actions: seq<Action>) {
    && |states| == |actions| + 1
    && forall i | 0 <= i < |actions| :: Step(states[i], actions[i], states[i + 1])
  }

  predicate IsExecution(states: seq<State>, actions: seq<Action>) {
    IsRun(states, actions) && Init(states[0])
  }
}
