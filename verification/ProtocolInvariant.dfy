/** The invariant of the running service, and that every step keeps it.

    The proof is by rely and guarantee: `Frame` bounds what a step of one process may do to the
    rest of the state in terms of the locks that process holds, and what a stage relies on is
    stable under the frames of all other processes because their locks are disjoint from its own. */
module ProtocolInvariant {
  import opened Validation
  import opened Relational
  import opened Protocol

  // ---- serial replay -----------------------------------------------------------------------

  /** The tables after serving the logged requests one at a time with no cache. */
  function Replay(log: seq<LogEntry>): Tables {
    if log == [] then Empty
    else
      var n := |log| - 1;
      Exec(Replay(log[..n]), log[n].request, log[n].draw).tables
  }

  /** Every logged request is valid and succeeds when its turn comes. */
  predicate Succeeds(log: seq<LogEntry>) {
    forall i | 0 <= i < |log| ::
      && ValidRequest(log[i].request)
      && Exec(Replay(log[..i]), log[i].request, log[i].draw).reply.status < 400
  }

  // ---- what the history says ---------------------------------------------------------------

  /** Versions count from 0; an update leaves the author and the creation time alone. */
  predicate Chain(h: seq<Message>) {
    && h != []
    && forall i | 0 <= i < |h| ::
         && h[i].version == i && ValidMessage(h[i])
         && h[i].authorId == h[0].authorId && h[i].createdAt == h[0].createdAt
  }

  predicate HistoryOk(s: State) {
    && (forall id | id in s.history :: Chain(s.history[id]))
    && (forall id | id in s.db.messages ::
          id in s.history && s.db.messages[id] == s.history[id][|s.history[id]| - 1])
  }

  predicate SeenOk(s: State) {
    forall a | a in s.db.authors :: AuthorView(a, s.db.authors[a]) in s.seen
  }

  /** The message fields of a body are those of a row. */
  predicate ShowsRow(body: MessageOut, row: Message) {
    && body.title == row.title && body.content == row.content
    && body.createdAt == row.createdAt && body.version == row.version
  }

  /** A body that was once committed: message fields of one version, and author fields that were
      committed together. */
  predicate BodyOk(s: State, body: MessageOut) {
    && Known(s, body.id, body.version)
    && ShowsRow(body, s.history[body.id][body.version])
    && body.author.id == s.history[body.id][body.version].authorId
    && body.author in s.seen
  }

  // ---- how old a loaded body is ------------------------------------------------------------

  predicate Current(s: State, body: MessageOut) {
    body.id in s.db.messages && s.db.messages[body.id].version == body.version
  }

  predicate CommittedSince(s: State, id: Id, time: nat) {
    exists k | 0 <= k < |s.commits| :: s.commits[k].id == id && s.commits[k].at > time
  }

  predicate LoadOk(s: State, body: MessageOut, loadedAt: nat) {
    && loadedAt < s.clock
    && (Current(s, body) <==> !CommittedSince(s, body.id, loadedAt))
  }

  /** No commit since the entry was loaded has been evicted after the entry was set. */
  predicate EntryOk(s: State, id: Id, e: Entry) {
    && BodyOk(s, e.body) && e.body.id == id
    && LoadOk(s, e.body, e.loadedAt)
    && e.setAt < s.clock
    && forall k | 0 <= k < |s.commits| ::
         s.commits[k].id == id && s.commits[k].at > e.loadedAt && s.commits[k].eviction.At? ==>
           s.commits[k].eviction.time < e.setAt
  }

  predicate CacheOk(s: State) {
    forall id | id in s.cache :: EntryOk(s, id, s.cache[id])
  }

  /** Times are in the past, and a pending eviction is owed by its process. */
  predicate CommitsOk(s: State) {
    forall k | 0 <= k < |s.commits| ::
      var c := s.commits[k];
      && c.at < s.clock
      && (c.eviction.At? ==> c.eviction.time < s.clock)
      && (c.eviction.Pending? ==> Owed(StageOf(s, c.owner)) == Some(k))
  }

  // ---- what a stage relies on --------------------------------------------------------------

  /** The row is there, at the submitted version, and the next version fits its column. */
  predicate Held(s: State, id: Id, edit: Edit, row: Message) {
    && ValidEdit(edit) && StorableEdit(edit)
    && id in s.db.messages && s.db.messages[id].version == edit.version < MAX_INT4
    && row == Edited(s.db.messages[id], edit)
  }

  /** The author is there as it was when its row was locked. */
  predicate Editing(s: State, id: Id, name: Option<string>, email: Option<string>, before: Author) {
    && ValidRequest(UpdateAuthor(id, name, email)) && StorableOption(name) && StorableOption(email)
    && id in s.db.authors && s.db.authors[id] == before
  }

  predicate OwesFor(s: State, p: Pid, id: Id, k: nat) {
    k < |s.commits| && s.commits[k].id == id && s.commits[k].owner == p && s.commits[k].eviction.Pending?
  }

  /** The body a successful PATCH answers. */
  predicate Applied(edit: Edit, id: Id, body: MessageOut) {
    && body.id == id && body.content == edit.content && body.version == edit.version + 1
    && (edit.title.Some? ==> body.title == edit.title.value)
  }

  /** A submitted version that had been committed is known to have been passed. */
  predicate Passed(s: State, id: Id, edit: Edit, read: bool) {
    read ==> id in s.history && (id in s.db.messages ==> s.db.messages[id].version > edit.version)
  }

  /** A request that has committed is answered with success, or 500 if a call raised after that. */
  predicate ReplyOk(s: State, p: Pid, r: Reply) {
    && (r.payload.TheMessage? ==> BodyOk(s, r.payload.message))
    && (p in s.wrote ==> r.status in {200, 201, 204, 500})
  }

  predicate StageOk(s: State, p: Pid, st: Stage) {
    match st
    case Idle => true
    case GetProbe(_) => p !in s.wrote
    case GetLoad(_) => p !in s.wrote
    case GetFill(id, body, loadedAt) =>
      p !in s.wrote && BodyOk(s, body) && body.id == id && LoadOk(s, body, loadedAt)
    case PatchUpdate(id, edit, read) =>
      p !in s.wrote && ValidEdit(edit) && (read ==> Known(s, id, edit.version))
    case PatchReload(id, edit, row) => p !in s.wrote && Held(s, id, edit, row)
    case PatchCommit(id, edit, row, out) =>
      && p !in s.wrote && Held(s, id, edit, row)
      && out.Some? && out.value == MessageView(id, row, out.value.author)
      && out.value.author.id == row.authorId && out.value.author in s.seen
    case PatchEvict(id, edit, out, k) =>
      && p in s.wrote && OwesFor(s, p, id, k)
      && out.Some? && BodyOk(s, out.value) && Applied(edit, id, out.value)
    case PatchRollback(id, edit, read) => p !in s.wrote && Passed(s, id, edit, read)
    case PatchHeal(id, edit, read) => p !in s.wrote && Passed(s, id, edit, read)
    case PatchCheck(id, edit, read) => p !in s.wrote && Passed(s, id, edit, read)
    case DropRow(_) => p !in s.wrote
    case DropCommit(id, found) => p !in s.wrote && (found ==> id in s.db.messages)
    case DropEvict(id, deleted) =>
      match deleted {
        case Some(k) => p in s.wrote && OwesFor(s, p, id, k)
        case None => p !in s.wrote
      }
    case PostAuthor(title, content, _) =>
      p !in s.wrote && ValidText(title, TITLE_MAX) && ValidText(content, CONTENT_MAX)
    case PostInsert(title, content, author) =>
      && p !in s.wrote && ValidText(title, TITLE_MAX) && ValidText(content, CONTENT_MAX)
      && author in s.seen
    case PostCommit(id, row, author) =>
      && p !in s.wrote && ValidMessage(row) && row.version == 0 && id !in s.history
      && row.authorId in s.db.authors && author in s.seen && author.id == row.authorId
    case AddAuthor(name, email) => p !in s.wrote && ValidText(name, NAME_MAX) && ValidAddress(email)
    case AddIndex(id, a) => p !in s.wrote && ValidAuthor(a) && id !in s.db.authors
    case AddCommit(id, a) =>
      p !in s.wrote && ValidAuthor(a) && id !in s.db.authors && !EmailTaken(s.db.authors, a.email)
    case ReadAuthor(_) => p !in s.wrote
    case EditAuthor(id, name, email) => p !in s.wrote && ValidRequest(UpdateAuthor(id, name, email))
    case EditIndex(id, name, email, before) => p !in s.wrote && Editing(s, id, name, email, before)
    case EditCommit(id, name, email, before) =>
      && p !in s.wrote && Editing(s, id, name, email, before)
      && var after := Changed(before, name, email);
         before.email != after.email ==> !EmailTaken(s.db.authors, after.email)
    case RemoveAuthor(_) => p !in s.wrote
    case RemoveCheck(id, target) => p !in s.wrote && id in s.db.authors && s.db.authors[id] == target
    case RemoveCommit(id, removed) =>
      && p !in s.wrote
      && (removed.Some? ==>
            id in s.db.authors && s.db.authors[id] == removed.value && !Referenced(s.db, id))
    case Closing(r) =>
      ReplyOk(s, p, r) && (if r.status < 400 then p in s.wrote else r.payload.Nothing?)
    case Done(r) => ReplyOk(s, p, r)
  }

  predicate StagesOk(s: State, ps: set<Pid>) {
    forall p | p in ps && p in s.procs :: StageOk(s, p, s.procs[p])
  }

  /** Exclusive locks exclude every other lock. */
  predicate Compatible(a: Stage, b: Stage) {
    Exclusive(a) !! Exclusive(b) && Exclusive(a) !! Shared(b) && Shared(a) !! Exclusive(b)
  }

  predicate LocksOk(s: State) {
    forall p, q | p in s.procs && q in s.procs && p != q :: Compatible(s.procs[p], s.procs[q])
  }

  predicate LogOk(s: State) {
    Succeeds(s.log) && Replay(s.log) == s.db
  }

  /** The invariant, apart from the log. */
  predicate Core(s: State) {
    && Sound(s.db) && HistoryOk(s) && SeenOk(s)
    && CacheOk(s) && CommitsOk(s) && StagesOk(s, s.procs.Keys) && LocksOk(s)
  }

  predicate Inv(s: State) {
    Core(s) && LogOk(s)
  }

  // ---- what a step of one process may change -----------------------------------------------

  predicate SameAt<K, V(==)>(a: map<K, V>, b: map<K, V>, k: K) {
    if k in a then k in b && a[k] == b[k] else k !in b
  }

  predicate Prefix<T(==)>(a: seq<T>, b: seq<T>) {
    |a| <= |b| && a == b[..|a|]
  }

  /** History only grows. */
  predicate Grows(s: State, s': State) {
    && (forall id | id in s.history :: id in s'.history && Prefix(s.history[id], s'.history[id]))
    && s.seen <= s'.seen
    && s.clock < s'.clock
  }

  predicate NewCommit(s: State, s': State, id: Id) {
    exists k | |s.commits| <= k < |s'.commits| :: s'.commits[k].id == id
  }

  /** A live row stays as it is without a new commit, or a new commit moves it to a version never
      used before or removes it. A removed row stays away. */
  ghost predicate RowTracked(s: State, s': State, id: Id) {
    if id in s.db.messages then
      if NewCommit(s, s', id)
      then id in s.history && (id in s'.db.messages ==> s'.db.messages[id].version == |s.history[id]|)
      else SameAt(s.db.messages, s'.db.messages, id)
    else (id in s.history ==> id !in s'.db.messages) && !NewCommit(s, s', id)
  }

  /** Only the process that owes an eviction settles it, and an eviction clears the entry. */
  predicate CommitsFrame(s: State, s': State, q: Pid) {
    && |s.commits| <= |s'.commits|
    && (forall k | 0 <= k < |s.commits| ::
          var c, c' := s.commits[k], s'.commits[k];
          && c'.id == c.id && c'.at == c.at && c'.owner == c.owner
          && (c.owner != q ==> c' == c)
          && (c'.eviction != c.eviction ==>
                !c'.eviction.Pending? &&
                (c'.eviction.At? ==> c'.eviction.time == s.clock && c.id !in s'.cache)))
    && (forall k | |s.commits| <= k < |s'.commits| ::
          var c' := s'.commits[k];
          c'.at == s.clock && c'.owner == q && c'.eviction.Pending?)
  }

  /** Rows, keys and emails change only under the process's own locks, and a message that refers
      to an author appears only under a share of the author's key. */
  ghost predicate TablesFrame(s: State, s': State, mine: set<Lock>, shares: set<Lock>) {
    && (forall id | MessageRow(id) !in mine ::
          SameAt(s.db.messages, s'.db.messages, id) && SameAt(s.history, s'.history, id))
    && (forall a | AuthorRow(a) !in mine :: SameAt(s.db.authors, s'.db.authors, a))
    && (forall a | AuthorKey(a) !in mine && a in s.db.authors :: a in s'.db.authors)
    && (forall e | EmailEntry(e) !in mine ::
          EmailTaken(s'.db.authors, e) ==> EmailTaken(s.db.authors, e))
    && (forall a | AuthorKey(a) !in shares :: Referenced(s'.db, a) ==> Referenced(s.db, a))
    && (forall id :: RowTracked(s, s', id))
  }

  predicate ProcsFrame(s: State, s': State, q: Pid) {
    && s'.procs.Keys == s.procs.Keys + {q}
    && (forall p | p in s.procs && p != q :: s'.procs[p] == s.procs[p])
    && (forall p | p in s.procs && p != q :: SameAt(s.wrote, s'.wrote, p))
  }

  ghost predicate Frame(s: State, s': State, q: Pid) {
    && Grows(s, s')
    && ProcsFrame(s, s', q)
    && CommitsFrame(s, s', q)
    && TablesFrame(s, s', Exclusive(StageOf(s, q)), Shared(StageOf(s, q)))
  }

  // ---- a stage is stable under the steps of others -----------------------------------------

  lemma BodyStable(s: State, s': State, body: MessageOut)
    requires BodyOk(s, body) && Grows(s, s')
    ensures BodyOk(s', body)
  {
    assert Prefix(s.history[body.id], s'.history[body.id]);
  }

  lemma LoadStable(s: State, s': State, q: Pid, body: MessageOut, loadedAt: nat)
    requires HistoryOk(s) && BodyOk(s, body) && LoadOk(s, body, loadedAt)
    requires s.clock < s'.clock && CommitsFrame(s, s', q) && RowTracked(s, s', body.id)
    ensures LoadOk(s', body, loadedAt)
  {
    if NewCommit(s, s', body.id) {
      var k :| |s.commits| <= k < |s'.commits| && s'.commits[k].id == body.id;
      assert CommittedSince(s', body.id, loadedAt);
    } else if CommittedSince(s, body.id, loadedAt) {
      var k :| 0 <= k < |s.commits| && s.commits[k].id == body.id && s.commits[k].at > loadedAt;
      assert s'.commits[k].at > loadedAt;
    } else {
      forall k | 0 <= k < |s'.commits| && s'.commits[k].id == body.id
        ensures s'.commits[k].at <= loadedAt
      {
        if |s.commits| <= k { assert NewCommit(s, s', body.id); }
        assert k < |s.commits|;
      }
    }
  }

  lemma PassedStable(s: State, s': State, id: Id, edit: Edit, read: bool)
    requires HistoryOk(s) && Grows(s, s') && RowTracked(s, s', id) && Passed(s, id, edit, read)
    ensures Passed(s', id, edit, read)
  {
    if read && id in s'.db.messages {
      assert id in s.db.messages;
      assert Chain(s.history[id]);
    }
  }

  // The stages of requests for messages.

  lemma MessageStageStable(s: State, s': State, q: Pid, p: Pid)
    requires HistoryOk(s) && Frame(s, s', q)
    requires p in s.procs && p != q && StageOk(s, p, s.procs[p])
    requires Compatible(s.procs[p], StageOf(s, q)) && !InAuthors(s.procs[p])
    ensures StageOk(s', p, s.procs[p])
  {
    hide BodyOk, LoadOk, ValidEdit, StorableEdit, ValidMessage, ValidText, ValidRequest, Passed;
    var mine := Exclusive(StageOf(s, q));
    match s.procs[p]
    case GetFill(id, body, loadedAt) =>
      BodyStable(s, s', body);
      assert RowTracked(s, s', id);
      LoadStable(s, s', q, body, loadedAt);
    case PatchUpdate(id, edit, read) =>
      assert id in s.history ==> Prefix(s.history[id], s'.history[id]);
    case PatchReload(id, edit, row) =>
      assert MessageRow(id) !in mine;
    case PatchCommit(id, edit, row, out) =>
      assert MessageRow(id) !in mine;
    case PatchEvict(id, edit, out, k) =>
      if out.Some? { BodyStable(s, s', out.value); }
    case PatchRollback(id, edit, read) => PassedStable(s, s', id, edit, read);
    case PatchHeal(id, edit, read) => PassedStable(s, s', id, edit, read);
    case PatchCheck(id, edit, read) => PassedStable(s, s', id, edit, read);
    case DropCommit(id, found) =>
      assert found ==> MessageRow(id) !in mine;
    case PostCommit(id, row, author) =>
      assert MessageRow(id) !in mine && AuthorKey(row.authorId) !in mine;
    case Closing(r) =>
      if r.payload.TheMessage? { BodyStable(s, s', r.payload.message); }
    case Done(r) =>
      if r.payload.TheMessage? { BodyStable(s, s', r.payload.message); }
    case _ =>
  }

  // Those of requests for authors.

  lemma AuthorStageStable(s: State, s': State, q: Pid, p: Pid)
    requires HistoryOk(s) && Frame(s, s', q)
    requires p in s.procs && p != q && StageOk(s, p, s.procs[p])
    requires Compatible(s.procs[p], StageOf(s, q)) && InAuthors(s.procs[p])
    ensures StageOk(s', p, s.procs[p])
  {
    var mine := Exclusive(StageOf(s, q));
    match s.procs[p]
    case AddIndex(id, a) =>
      assert AuthorRow(id) !in mine;
    case AddCommit(id, a) =>
      assert AuthorRow(id) !in mine && EmailEntry(a.email) !in mine;
    case EditIndex(id, name, email, before) =>
      assert AuthorRow(id) in EditLocks(id, before, Changed(before, name, email));
    case EditCommit(id, name, email, before) => EditStable(s, s', q, id, name, email, before);
    case RemoveCheck(id, target) =>
      assert AuthorRow(id) !in mine;
    case RemoveCommit(id, removed) =>
      assert removed.Some? ==> AuthorRow(id) !in mine && AuthorKey(id) !in Shared(StageOf(s, q));
    case _ =>
  }

  /** What a stage relies on survives a step of another process. */
  lemma StageStable(s: State, s': State, q: Pid, p: Pid)
    requires HistoryOk(s) && Frame(s, s', q)
    requires p in s.procs && p != q && StageOk(s, p, s.procs[p])
    requires Compatible(s.procs[p], StageOf(s, q))
    ensures StageOk(s', p, s.procs[p])
  {
    hide StageOk, Frame, HistoryOk, Compatible;
    if InAuthors(s.procs[p]) { AuthorStageStable(s, s', q, p); } else { MessageStageStable(s, s', q, p); }
  }

  lemma EditStable(
    s: State, s': State, q: Pid, id: Id, name: Option<string>, email: Option<string>, before: Author)
    requires Frame(s, s', q)
    requires Compatible(EditCommit(id, name, email, before), StageOf(s, q))
    requires id in s.db.authors && s.db.authors[id] == before
    requires var after := Changed(before, name, email);
             before.email != after.email ==> !EmailTaken(s.db.authors, after.email)
    ensures id in s'.db.authors && s'.db.authors[id] == before
    ensures var after := Changed(before, name, email);
            before.email != after.email ==> !EmailTaken(s'.db.authors, after.email)
  {
    var mine := Exclusive(StageOf(s, q));
    var after := Changed(before, name, email);
    assert AuthorRow(id) in EditLocks(id, before, after);
    if before.email != after.email {
      assert EmailEntry(after.email) in NewEntry(before, after);
    }
  }
}
