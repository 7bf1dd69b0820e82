/** The steps that commit a change of the tables or settle an eviction, and the theorem that every
    step keeps the invariant. */
module ProtocolCommits {
  import opened Validation
  import opened Relational
  import opened Protocol
  import opened ProtocolInvariant
  import opened ProtocolSteps

  // ---- steps that commit a change of the tables --------------------------------------------

  /** The step commits one request that the service without a cache would serve, there and then,
      with the same effect. */
  predicate Logged(s: State, s': State) {
    && |s'.log| == |s.log| + 1 && s'.log[..|s.log|] == s.log
    && ValidRequest(s'.log[|s.log|].request)
    && Fresh(s.db, s'.log[|s.log|].request, s'.log[|s.log|].draw)
    && Exec(s.db, s'.log[|s.log|].request, s'.log[|s.log|].draw).tables == s'.db
    && Exec(s.db, s'.log[|s.log|].request, s'.log[|s.log|].draw).reply.status < 400
  }

  lemma LoggedIsSound(s: State, s': State)
    requires Sound(s.db) && Logged(s, s')
    ensures Sound(s'.db)
  {
    hide Sound, Exec, ValidRequest;
    var e := s'.log[|s.log|];
    ExecKeepsSound(s.db, e.request, e.draw);
  }

  lemma LoggedIsReplayed(s: State, s': State)
    requires LogOk(s) && Logged(s, s')
    ensures LogOk(s')
  {
    hide Exec, ValidRequest;
    var n := |s.log|;
    assert s'.log[..n] == s.log;
    forall i | 0 <= i < |s'.log|
      ensures ValidRequest(s'.log[i].request)
      ensures Exec(Replay(s'.log[..i]), s'.log[i].request, s'.log[i].draw).reply.status < 400
    {
      if i < n {
        assert s'.log[i] == s.log[i] && s'.log[..i] == s.log[..i];
      }
    }
  }

  lemma CommitAssemble(s: State, s': State, p: Pid)
    requires Core(s) && Frame(s, s', p) && Logged(s, s')
    requires HistoryOk(s') && SeenOk(s') && s'.cache == s.cache && OwesOnly(s', p)
    requires StagesOk(s', {p}) && Exclusive(s'.procs[p]) == {} && Shared(s'.procs[p]) == {}
    ensures Core(s')
  {
    hide Frame, StagesOk, HistoryOk, SeenOk, OwesOnly, Logged;
    LoggedIsSound(s, s');
    Assemble(s, s', p);
  }

  lemma PatchCommitLogged(s: State, p: Pid, id: Id, edit: Edit, row: Message, out: Option<MessageOut>)
    requires Sound(s.db) && Held(s, id, edit, row)
    ensures Logged(s, PatchCommitStep(s, p, id, edit, row, out))
  {
    hide ValidEdit, ValidMessage, ValidAuthor;
    assert s.db.messages[id].authorId in s.db.authors;
  }

  lemma ChainGrows(h: seq<Message>, row: Message)
    requires Chain(h) && ValidMessage(row) && row.version == |h|
    requires row.authorId == h[0].authorId && row.createdAt == h[0].createdAt
    ensures Chain(h + [row])
  {
    hide ValidMessage;
  }

  lemma HeldChain(s: State, id: Id, edit: Edit, row: Message)
    requires HistoryOk(s) && Held(s, id, edit, row)
    ensures id in s.history && Chain(s.history[id]) && row.version == |s.history[id]|
    ensures row.authorId == s.history[id][0].authorId && row.createdAt == s.history[id][0].createdAt
  {
    hide ValidEdit, StorableEdit, ValidMessage;
    assert Chain(s.history[id]);
  }

  lemma HistoryPut(s: State, s': State, id: Id, h: seq<Message>)
    requires HistoryOk(s) && Chain(h) && h != [] && s'.history == s.history[id := h]
    requires s'.db.messages == s.db.messages[id := h[|h| - 1]]
    requires id in s.history ==> Prefix(s.history[id], h)
    requires s.seen <= s'.seen && s.clock < s'.clock
    ensures HistoryOk(s') && Grows(s, s')
  {
    hide Chain;
  }

  lemma PatchCommitHistory(s: State, s': State, id: Id, edit: Edit, row: Message)
    requires HistoryOk(s) && Held(s, id, edit, row)
    requires s'.db.messages == s.db.messages[id := row] && s'.history == Extended(s.history, id, row)
    requires ValidMessage(row) && s.seen <= s'.seen && s.clock < s'.clock
    ensures HistoryOk(s') && Grows(s, s') && |s.history[id]| == row.version
    ensures Known(s', id, row.version) && s'.history[id][row.version] == row
  {
    hide HistoryOk, Held, ValidMessage, Chain, Grows;
    HeldChain(s, id, edit, row);
    ChainGrows(s.history[id], row);
    HistoryPut(s, s', id, s.history[id] + [row]);
  }

  lemma PatchCommitTables(s: State, p: Pid, id: Id, edit: Edit, row: Message, out: Option<MessageOut>)
    requires HistoryOk(s) && Held(s, id, edit, row)
    ensures TablesFrame(s, PatchCommitStep(s, p, id, edit, row, out), {MessageRow(id)}, {})
  {
    hide ValidEdit, ValidMessage;
    var s' := PatchCommitStep(s, p, id, edit, row, out);
    assert Chain(s.history[id]);
    assert s'.commits[|s.commits|].id == id;
    assert NewCommit(s, s', id);
    forall a | Referenced(s'.db, a)
      ensures Referenced(s.db, a)
    {
      var m :| m in s'.db.messages && s'.db.messages[m].authorId == a;
      assert m in s.db.messages && s.db.messages[m].authorId == a;
    }
  }

  /** A step that appends a commit of its own, whose eviction its next stage owes. */
  lemma AppendFrames(s: State, s': State, p: Pid, id: Id)
    requires CommitsOk(s) && p in s.procs && Owed(s.procs[p]).None?
    requires s'.commits == s.commits + [Commit(id, s.clock, p, Pending)]
    requires p in s'.procs && s'.procs == s.procs[p := s'.procs[p]] && s'.wrote == s.wrote[p := |s.log|]
    requires Owed(s'.procs[p]) == Some(|s.commits|)
    ensures CommitsFrame(s, s', p) && ProcsFrame(s, s', p) && OwesOnly(s', p)
  {
  }

  lemma PatchCommitStage(s: State, p: Pid, id: Id, edit: Edit, row: Message, out: Option<MessageOut>)
    requires StageOk(s, p, PatchCommit(id, edit, row, out))
    requires var s' := PatchCommitStep(s, p, id, edit, row, out);
             Known(s', id, row.version) && s'.history[id][row.version] == row
    ensures StagesOk(PatchCommitStep(s, p, id, edit, row, out), {p})
  {
    hide ValidEdit, ValidMessage;
  }

  lemma PatchCommitKeeps(s: State, p: Pid, id: Id, edit: Edit, row: Message, out: Option<MessageOut>)
    requires Core(s) && StageOf(s, p) == PatchCommit(id, edit, row, out)
    ensures Core(PatchCommitStep(s, p, id, edit, row, out))
    ensures Frame(s, PatchCommitStep(s, p, id, edit, row, out), p)
    ensures Logged(s, PatchCommitStep(s, p, id, edit, row, out))
  {
    hide Core, Sound, HistoryOk, SeenOk, CacheOk, CommitsOk, Held, Logged, OwesOnly,
         TablesFrame, CommitsFrame, ProcsFrame, Grows, Chain, StagesOk, ValidMessage;
    CoreParts(s, p);
    var s' := PatchCommitStep(s, p, id, edit, row, out);
    PatchCommitLogged(s, p, id, edit, row, out);
    EditedIsValid(s, id, edit, row);
    PatchCommitHistory(s, s', id, edit, row);
    PatchCommitTables(s, p, id, edit, row, out);
    AppendFrames(s, s', p, id);
    PatchCommitStage(s, p, id, edit, row, out);
    SeenKept(s, s');
    CommitAssemble(s, s', p);
  }

  lemma EditedIsValid(s: State, id: Id, edit: Edit, row: Message)
    requires Sound(s.db) && Held(s, id, edit, row)
    ensures ValidMessage(row)
  {
    hide ValidText;
  }

  lemma SeenKept(s: State, s': State)
    requires SeenOk(s) && s'.db.authors == s.db.authors && s.seen <= s'.seen
    ensures SeenOk(s')
  {
  }

  // DELETE

  lemma DropCommitLogged(s: State, p: Pid, id: Id)
    requires id in s.db.messages
    ensures Logged(s, DropCommitStep(s, p, id, true))
  {
  }

  lemma DropCommitTables(s: State, p: Pid, id: Id)
    requires HistoryOk(s) && id in s.db.messages
    ensures TablesFrame(s, DropCommitStep(s, p, id, true), {MessageRow(id)}, {})
    ensures HistoryOk(DropCommitStep(s, p, id, true)) && Grows(s, DropCommitStep(s, p, id, true))
  {
    hide Chain;
    var s' := DropCommitStep(s, p, id, true);
    assert s'.commits[|s.commits|].id == id;
    assert NewCommit(s, s', id);
    forall a | Referenced(s'.db, a)
      ensures Referenced(s.db, a)
    {
      var m :| m in s'.db.messages && s'.db.messages[m].authorId == a;
      assert m in s.db.messages && s.db.messages[m].authorId == a;
    }
  }

  lemma DropCommitKeeps(s: State, p: Pid, id: Id)
    requires Core(s) && StageOf(s, p) == DropCommit(id, true)
    ensures Core(DropCommitStep(s, p, id, true))
    ensures Frame(s, DropCommitStep(s, p, id, true), p)
    ensures Logged(s, DropCommitStep(s, p, id, true))
  {
    hide Core, Sound, HistoryOk, SeenOk, CacheOk, CommitsOk, Logged, OwesOnly,
         TablesFrame, CommitsFrame, ProcsFrame, Grows, StagesOk;
    CoreParts(s, p);
    var s' := DropCommitStep(s, p, id, true);
    assert StagesOk(s', {p}) by {
      DropCommitStage(s, p, id);
    }
    DropCommitLogged(s, p, id);
    DropCommitTables(s, p, id);
    AppendFrames(s, s', p, id);
    SeenKept(s, s');
    CommitAssemble(s, s', p);
  }

  lemma DropCommitStage(s: State, p: Pid, id: Id)
    ensures StagesOk(DropCommitStep(s, p, id, true), {p})
  {
  }

  // POST /messages

  /** A step that leaves the commits of PATCH and DELETE alone. */
  lemma PlainFrames(s: State, s': State, p: Pid)
    requires CommitsOk(s) && p in s.procs && Owed(s.procs[p]).None?
    requires s'.commits == s.commits && s'.cache == s.cache
    requires p in s'.procs && s'.procs == s.procs[p := s'.procs[p]] && s'.wrote == s.wrote[p := |s.log|]
    ensures CommitsFrame(s, s', p) && ProcsFrame(s, s', p) && OwesOnly(s', p)
  {
  }

  lemma PostCommitLogged(s: State, p: Pid, id: Id, row: Message, author: AuthorOut)
    requires HistoryOk(s) && StageOk(s, p, PostCommit(id, row, author))
    ensures Logged(s, PostCommitStep(s, p, id, row, author))
  {
    hide ValidText, Chain;
  }

  lemma PostCommitTables(s: State, p: Pid, id: Id, row: Message, author: AuthorOut)
    requires HistoryOk(s) && StageOk(s, p, PostCommit(id, row, author))
    ensures var s' := PostCommitStep(s, p, id, row, author);
            TablesFrame(s, s', {MessageRow(id)}, {AuthorKey(row.authorId)})
  {
    hide ValidMessage, Chain;
    var s' := PostCommitStep(s, p, id, row, author);
    forall a | Referenced(s'.db, a) && a != row.authorId
      ensures Referenced(s.db, a)
    {
      var m :| m in s'.db.messages && s'.db.messages[m].authorId == a;
      assert m in s.db.messages && s.db.messages[m].authorId == a;
    }
  }

  lemma PostCommitHistory(s: State, p: Pid, id: Id, row: Message, author: AuthorOut)
    requires HistoryOk(s) && StageOk(s, p, PostCommit(id, row, author))
    ensures var s' := PostCommitStep(s, p, id, row, author);
            HistoryOk(s') && Grows(s, s') && s'.history[id] == [row]
  {
    hide HistoryOk, ValidMessage, Chain, Grows;
    var s' := PostCommitStep(s, p, id, row, author);
    FirstRow(row);
    assert [] + [row] == [row];
    HistoryPut(s, s', id, [row]);
  }

  lemma FirstRow(row: Message)
    requires ValidMessage(row) && row.version == 0
    ensures Chain([row])
  {
    hide ValidMessage;
  }

  lemma PostCommitStage(s: State, p: Pid, id: Id, row: Message, author: AuthorOut)
    requires StageOk(s, p, PostCommit(id, row, author))
    requires PostCommitStep(s, p, id, row, author).history[id] == [row]
    ensures StagesOk(PostCommitStep(s, p, id, row, author), {p})
  {
    hide ValidMessage;
  }

  lemma PostCommitKeeps(s: State, p: Pid, id: Id, row: Message, author: AuthorOut)
    requires Core(s) && StageOf(s, p) == PostCommit(id, row, author)
    ensures Core(PostCommitStep(s, p, id, row, author))
    ensures Frame(s, PostCommitStep(s, p, id, row, author), p)
    ensures Logged(s, PostCommitStep(s, p, id, row, author))
  {
    hide Core, Sound, HistoryOk, SeenOk, CacheOk, CommitsOk, Logged, OwesOnly,
         TablesFrame, CommitsFrame, ProcsFrame, Grows, StagesOk, StageOk;
    CoreParts(s, p);
    var s' := PostCommitStep(s, p, id, row, author);
    PostCommitLogged(s, p, id, row, author);
    PostCommitTables(s, p, id, row, author);
    PostCommitHistory(s, p, id, row, author);
    PostCommitStage(s, p, id, row, author);
    PlainFrames(s, s', p);
    SeenKept(s, s');
    CommitAssemble(s, s', p);
  }

  // The author endpoints

  /** A step that changes the authors only. */
  lemma AuthorsTables(s: State, s': State, mine: set<Lock>)
    requires HistoryOk(s) && s'.db.messages == s.db.messages && s'.history == s.history
    requires s'.commits == s.commits && s.seen <= s'.seen && s.clock < s'.clock
    requires forall a | AuthorRow(a) !in mine :: SameAt(s.db.authors, s'.db.authors, a)
    requires forall a | AuthorKey(a) !in mine && a in s.db.authors :: a in s'.db.authors
    requires forall e | EmailEntry(e) !in mine :: EmailTaken(s'.db.authors, e) ==> EmailTaken(s.db.authors, e)
    ensures TablesFrame(s, s', mine, {}) && Grows(s, s') && HistoryOk(s')
  {
    hide Chain, EmailTaken;
    forall a | Referenced(s'.db, a)
      ensures Referenced(s.db, a)
    {
      var m :| m in s'.db.messages && s'.db.messages[m].authorId == a;
      assert m in s.db.messages && s.db.messages[m].authorId == a;
    }
  }

  lemma AddCommitLogged(s: State, p: Pid, id: Id, a: Author)
    requires StageOk(s, p, AddCommit(id, a))
    ensures Logged(s, AddCommitStep(s, p, id, a))
  {
    hide ValidText, ValidEmail, EmailTaken;
  }

  lemma PutAuthorEmails(authors: map<Id, Author>, id: Id, a: Author, e: string)
    requires e != a.email && EmailTaken(authors[id := a], e)
    ensures EmailTaken(authors, e)
  {
    var b :| b in authors[id := a] && authors[id := a][b].email == e;
    assert b in authors && authors[b].email == e;
  }

  lemma AddCommitTables(s: State, p: Pid, id: Id, a: Author)
    requires HistoryOk(s)
    ensures var s' := AddCommitStep(s, p, id, a);
            && TablesFrame(s, s', {AuthorRow(id), EmailEntry(a.email)}, {})
            && Grows(s, s') && HistoryOk(s')
  {
    hide HistoryOk, TablesFrame, Grows;
    var s' := AddCommitStep(s, p, id, a);
    forall e | e != a.email && EmailTaken(s'.db.authors, e)
      ensures EmailTaken(s.db.authors, e)
    {
      PutAuthorEmails(s.db.authors, id, a, e);
    }
    AuthorsTables(s, s', {AuthorRow(id), EmailEntry(a.email)});
  }

  lemma WithAuthorSeen(s: State, s': State, id: Id, a: Author)
    requires SeenOk(s) && s'.db.authors == s.db.authors[id := a] && s'.seen == s.seen + {AuthorView(id, a)}
    ensures SeenOk(s')
  {
  }

  lemma AddCommitKeeps(s: State, p: Pid, id: Id, a: Author)
    requires Core(s) && StageOf(s, p) == AddCommit(id, a)
    ensures Core(AddCommitStep(s, p, id, a))
    ensures Frame(s, AddCommitStep(s, p, id, a), p)
    ensures Logged(s, AddCommitStep(s, p, id, a))
  {
    hide Core, Sound, HistoryOk, SeenOk, CacheOk, CommitsOk, Logged, OwesOnly,
         TablesFrame, CommitsFrame, ProcsFrame, Grows, StageOk, EmailTaken;
    CoreParts(s, p);
    var s' := AddCommitStep(s, p, id, a);
    AnsweredStage(s', p);
    AddCommitLogged(s, p, id, a);
    AddCommitTables(s, p, id, a);
    PlainFrames(s, s', p);
    WithAuthorSeen(s, s', id, a);
    CommitAssemble(s, s', p);
  }

  lemma AnsweredStage(s: State, p: Pid)
    requires p in s.procs && s.procs[p].Closing? && p in s.wrote
    requires s.procs[p].reply.status in {200, 201, 204} && !s.procs[p].reply.payload.TheMessage?
    ensures StagesOk(s, {p})
  {
  }

  lemma EditCommitLogged(
    s: State, p: Pid, id: Id, name: Option<string>, email: Option<string>, before: Author)
    requires Sound(s.db) && StageOk(s, p, EditCommit(id, name, email, before))
    ensures Logged(s, EditCommitStep(s, p, id, name, email, before))
  {
    hide ValidText, ValidEmail, ValidAuthor, ValidMessage, AuthorsExist;
    if email.Some? && EmailTaken(s.db.authors - {id}, email.value) {
      OthersTaken(s.db.authors, id, email.value);
    }
  }

  lemma OthersTaken(authors: map<Id, Author>, id: Id, email: string)
    requires EmailTaken(authors - {id}, email)
    ensures EmailTaken(authors, email) && exists b | b in authors && b != id :: authors[b].email == email
  {
    var b :| b in authors - {id} && authors[b].email == email;
    assert b in authors && b != id;
  }

  function CommitLocks(id: Id, before: Author, after: Author): set<Lock> {
    EditLocks(id, before, after) + NewEntry(before, after)
  }

  lemma EditCommitTables(
    s: State, p: Pid, id: Id, name: Option<string>, email: Option<string>, before: Author)
    requires HistoryOk(s) && id in s.db.authors && s.db.authors[id] == before
    ensures var s' := EditCommitStep(s, p, id, name, email, before);
            && TablesFrame(s, s', CommitLocks(id, before, Changed(before, name, email)), {})
            && Grows(s, s') && HistoryOk(s')
  {
    hide HistoryOk, TablesFrame, Grows;
    var s' := EditCommitStep(s, p, id, name, email, before);
    var after := Changed(before, name, email);
    forall e | EmailEntry(e) !in CommitLocks(id, before, after) && EmailTaken(s'.db.authors, e)
      ensures EmailTaken(s.db.authors, e)
    {
      if e == after.email {
        assert before.email == e;
      } else {
        PutAuthorEmails(s.db.authors, id, after, e);
      }
    }
    AuthorsTables(s, s', CommitLocks(id, before, after));
  }

  lemma EditCommitKeeps(
    s: State, p: Pid, id: Id, name: Option<string>, email: Option<string>, before: Author)
    requires Core(s) && StageOf(s, p) == EditCommit(id, name, email, before)
    ensures Core(EditCommitStep(s, p, id, name, email, before))
    ensures Frame(s, EditCommitStep(s, p, id, name, email, before), p)
    ensures Logged(s, EditCommitStep(s, p, id, name, email, before))
  {
    hide Core, Sound, HistoryOk, SeenOk, CacheOk, CommitsOk, Logged, OwesOnly, CompatibleWithOthers,
         TablesFrame, CommitsFrame, ProcsFrame, Grows, StagesOk, EmailTaken, ValidRequest, EditLocks, NewEntry, Changed;
    CoreParts(s, p);
    var s' := EditCommitStep(s, p, id, name, email, before);
    AnsweredStage(s', p);
    EditCommitLogged(s, p, id, name, email, before);
    EditCommitTables(s, p, id, name, email, before);
    PlainFrames(s, s', p);
    WithAuthorSeen(s, s', id, Changed(before, name, email));
    CommitAssemble(s, s', p);
  }

  lemma RemoveCommitLogged(s: State, p: Pid, id: Id, removed: Option<Author>)
    requires StageOk(s, p, RemoveCommit(id, removed)) && removed.Some?
    ensures Logged(s, RemoveCommitStep(s, p, id, removed))
  {
    hide Referenced;
  }

  lemma RemoveCommitTables(s: State, p: Pid, id: Id, removed: Option<Author>)
    requires HistoryOk(s) && removed.Some?
    ensures var s' := RemoveCommitStep(s, p, id, removed);
            && TablesFrame(s, s', {AuthorRow(id), AuthorKey(id), EmailEntry(removed.value.email)}, {})
            && Grows(s, s') && HistoryOk(s')
  {
    hide HistoryOk, TablesFrame, Grows;
    var s' := RemoveCommitStep(s, p, id, removed);
    forall e | EmailTaken(s'.db.authors, e)
      ensures EmailTaken(s.db.authors, e)
    {
      var b :| b in s'.db.authors && s'.db.authors[b].email == e;
      assert b in s.db.authors && s.db.authors[b].email == e;
    }
    AuthorsTables(s, s', {AuthorRow(id), AuthorKey(id), EmailEntry(removed.value.email)});
  }

  lemma RemoveCommitKeeps(s: State, p: Pid, id: Id, removed: Option<Author>)
    requires Core(s) && StageOf(s, p) == RemoveCommit(id, removed) && removed.Some?
    ensures Core(RemoveCommitStep(s, p, id, removed))
    ensures Frame(s, RemoveCommitStep(s, p, id, removed), p)
    ensures Logged(s, RemoveCommitStep(s, p, id, removed))
  {
    hide Core, Sound, HistoryOk, SeenOk, CacheOk, CommitsOk, Logged, OwesOnly,
         TablesFrame, CommitsFrame, ProcsFrame, Grows, StagesOk, Referenced;
    CoreParts(s, p);
    var s' := RemoveCommitStep(s, p, id, removed);
    AnsweredStage(s', p);
    RemoveCommitLogged(s, p, id, removed);
    RemoveCommitTables(s, p, id, removed);
    PlainFrames(s, s', p);
    SeenDropped(s, s');
    CommitAssemble(s, s', p);
  }

  lemma SeenDropped(s: State, s': State)
    requires SeenOk(s) && s'.seen == s.seen
    requires forall a | a in s'.db.authors :: a in s.db.authors && s'.db.authors[a] == s.db.authors[a]
    ensures SeenOk(s')
  {
  }

  // ---- steps that settle an eviction -------------------------------------------------------

  /** The step clears the entry of a commit, or loses its eviction, and does nothing else. */
  predicate Settles(s: State, s': State, p: Pid, k: nat) {
    && Owed(StageOf(s, p)) == Some(k) && p in s.procs && k < |s.commits|
    && s.commits[k].owner == p
    && |s'.commits| == |s.commits| && s'.commits == s.commits[k := s'.commits[k]]
    && s'.commits[k] == s.commits[k].(eviction := s'.commits[k].eviction)
    && !s'.commits[k].eviction.Pending?
    && (if s'.commits[k].eviction.At?
        then s'.commits[k].eviction.time == s.clock && s'.cache == s.cache - {s.commits[k].id}
        else s'.cache == s.cache)
    && s'.db == s.db && s'.history == s.history && s'.seen == s.seen && s'.log == s.log
    && s'.wrote == s.wrote && s'.clock == s.clock + 1
    && p in s'.procs && s'.procs == s.procs[p := s'.procs[p]]
    && Owed(s'.procs[p]).None? && Exclusive(s'.procs[p]) == {} && Shared(s'.procs[p]) == {}
  }

  lemma SettleFrame(s: State, s': State, p: Pid, k: nat)
    requires Settles(s, s', p, k) && CommitsOk(s)
    ensures CommitsFrame(s, s', p) && OwesOnly(s', p) && ProcsFrame(s, s', p)
  {
  }

  lemma SettleTables(s: State, s': State, p: Pid, k: nat)
    requires Settles(s, s', p, k)
    ensures TablesFrame(s, s', {}, {}) && Grows(s, s') && CacheStep(s, s')
  {
    hide EntryOk;
  }

  lemma SettleKeeps(s: State, s': State, p: Pid, k: nat)
    requires Core(s) && Settles(s, s', p, k) && StagesOk(s', {p})
    ensures Core(s') && Frame(s, s', p)
  {
    hide Core, Sound, CacheOk, CommitsOk, OwesOnly, TablesFrame, CommitsFrame, ProcsFrame,
         Grows, StagesOk, CacheStep, StageOk;
    CoreParts(s, p);
    SettleFrame(s, s', p, k);
    SettleTables(s, s', p, k);
    SameHistory(s, s');
    Assemble(s, s', p);
  }

  lemma SameHistory(s: State, s': State)
    requires HistoryOk(s) && SeenOk(s) && s'.db == s.db && s'.history == s.history && s'.seen == s.seen
    ensures HistoryOk(s') && SeenOk(s')
  {
    hide Chain;
  }

  lemma PatchEvictStage(s: State, p: Pid, id: Id, edit: Edit, out: Option<MessageOut>, k: nat)
    requires StageOk(s, p, PatchEvict(id, edit, out, k)) && p in s.procs
    requires s.procs[p] == PatchEvict(id, edit, out, k)
    ensures var s' := PatchEvictStep(s, p, id, out, k);
            Settles(s, s', p, k) && StagesOk(s', {p})
  {
    BodyStable(s, PatchEvictStep(s, p, id, out, k), out.value);
  }

  lemma PatchEvictKeeps(s: State, p: Pid, id: Id, edit: Edit, out: Option<MessageOut>, k: nat)
    requires Core(s) && StageOf(s, p) == PatchEvict(id, edit, out, k)
    ensures Core(PatchEvictStep(s, p, id, out, k)) && Frame(s, PatchEvictStep(s, p, id, out, k), p)
  {
    hide Core, Frame, StagesOk, StageOk, Sound, HistoryOk, SeenOk, CacheOk, CommitsOk, Settles;
    CoreParts(s, p);
    PatchEvictStage(s, p, id, edit, out, k);
    SettleKeeps(s, PatchEvictStep(s, p, id, out, k), p, k);
  }

  lemma DropEvictStage(s: State, p: Pid, id: Id, k: nat)
    requires StageOk(s, p, DropEvict(id, Some(k))) && p in s.procs
    requires s.procs[p] == DropEvict(id, Some(k))
    ensures var s' := DropEvictStep(s, p, id, Some(k));
            Settles(s, s', p, k) && StagesOk(s', {p})
  {
  }

  lemma DropEvictKeeps(s: State, p: Pid, id: Id, k: nat)
    requires Core(s) && StageOf(s, p) == DropEvict(id, Some(k))
    ensures Core(DropEvictStep(s, p, id, Some(k))) && Frame(s, DropEvictStep(s, p, id, Some(k)), p)
  {
    hide Core, Frame, StagesOk, StageOk, Sound, HistoryOk, SeenOk, CacheOk, CommitsOk, Settles;
    CoreParts(s, p);
    DropEvictStage(s, p, id, k);
    SettleKeeps(s, DropEvictStep(s, p, id, Some(k)), p, k);
  }

  lemma AbandonStage(s: State, p: Pid, st: Stage)
    requires p in s.procs && StageOk(s, p, s.procs[p]) && (st.Idle? || st == Closing(ServerError))
    ensures var s' := Abandon(s, p, st);
            && StagesOk(s', {p})
            && match Owed(s.procs[p]) {
                 case Some(k) => Settles(s, s', p, k)
                 case None => s' == Goto(s, p, st)
               }
  {
  }

  lemma AbandonKeeps(s: State, p: Pid, st: Stage)
    requires Core(s) && p in s.procs && (st.Idle? || st == Closing(ServerError))
    ensures Core(Abandon(s, p, st)) && Frame(s, Abandon(s, p, st), p)
  {
    hide Core, Frame, StagesOk, StageOk, Sound, HistoryOk, SeenOk, CacheOk, CommitsOk, Settles, Abandon;
    CoreParts(s, p);
    AbandonStage(s, p, st);
    match Owed(s.procs[p])
    case Some(k) => SettleKeeps(s, Abandon(s, p, st), p, k);
    case None => GotoUnlocked(s, p, st);
  }

  // ---- which stages write ------------------------------------------------------------------

  /** The stages whose next step commits a change of the tables. */
  predicate Commits(st: Stage) {
    || st.PatchCommit? || st.PostCommit? || st.AddCommit? || st.EditCommit?
    || (st.DropCommit? && st.found) || (st.RemoveCommit? && st.removed.Some?)
  }

  predicate SameTables(s: State, s': State) {
    s'.db == s.db && s'.history == s.history && s'.log == s.log && s'.wrote == s.wrote
  }

  /** All other stages leave the tables, the history and the log alone. */
  lemma OnlyCommitsWrite(s: State, p: Pid, d: Draw)
    requires !Commits(StageOf(s, p))
    ensures SameTables(s, AdvanceStep(s, p, d))
  {
    hide SameTables, GetStep, PatchStep, DropStep, PostStep, AuthorStep;
    GetIsQuiet(s, p);
    PatchIsQuiet(s, p);
    DropIsQuiet(s, p);
    PostIsQuiet(s, p, d);
    AuthorIsQuiet(s, p, d);
    GotoIsQuiet(s, p);
  }

  lemma GotoIsQuiet(s: State, p: Pid)
    ensures SameTables(s, s) && forall st :: SameTables(s, Goto(s, p, st))
  {
  }

  lemma GotoTables(p: Pid)
    ensures forall s: State, st ::
              var s' := Goto(s, p, st);
              && s'.db == s.db && s'.history == s.history && s'.log == s.log && s'.wrote == s.wrote
              && s'.cache == s.cache && s'.asked == s.asked
  {
  }

  lemma GotoLands(p: Pid)
    ensures forall s: State, st :: StageOf(Goto(s, p, st), p) == st
  {
  }

  lemma GetIsQuiet(s: State, p: Pid)
    ensures SameTables(s, GetStep(s, p))
  {
    GotoTables(p);
    hide Goto;
  }

  lemma PatchIsQuiet(s: State, p: Pid)
    requires !Commits(StageOf(s, p))
    ensures SameTables(s, PatchStep(s, p))
  {
    hide SameTables, PatchUpdateStep, PatchReloadStep, PatchCommitStep, PatchEvictStep, PatchHealStep, PatchCheckStep;
    match StageOf(s, p)
    case PatchUpdate(id, edit, read) => UpdateIsQuiet(s, p, id, edit, read);
    case PatchReload(id, edit, row) => ReloadIsQuiet(s, p, id, edit, row);
    case PatchEvict(id, edit, out, k) => EvictIsQuiet(s, p, id, out, k);
    case _ => LaterIsQuiet(s, p);
  }

  lemma UpdateIsQuiet(s: State, p: Pid, id: Id, edit: Edit, read: bool)
    ensures SameTables(s, PatchUpdateStep(s, p, id, edit, read))
  {
    GotoTables(p);
    hide Goto, UpdateMatches, StorableEdit;
  }

  lemma ReloadIsQuiet(s: State, p: Pid, id: Id, edit: Edit, row: Message)
    ensures SameTables(s, PatchReloadStep(s, p, id, edit, row))
  {
    GotoTables(p);
    hide Goto, Load;
  }

  lemma EvictIsQuiet(s: State, p: Pid, id: Id, out: Option<MessageOut>, k: nat)
    ensures SameTables(s, PatchEvictStep(s, p, id, out, k))
  {
    GotoTables(p);
    hide Goto, Evicted;
  }

  lemma LaterIsQuiet(s: State, p: Pid)
    requires var st := StageOf(s, p); !st.PatchUpdate? && !st.PatchReload? && !st.PatchCommit? && !st.PatchEvict?
    ensures SameTables(s, PatchStep(s, p))
  {
    GotoTables(p);
    hide Goto, PatchUpdateStep, PatchReloadStep, PatchCommitStep, PatchEvictStep;
  }

  lemma DropIsQuiet(s: State, p: Pid)
    requires !Commits(StageOf(s, p))
    ensures SameTables(s, DropStep(s, p))
  {
    GotoTables(p);
    hide Goto, Evicted;
  }

  lemma PostIsQuiet(s: State, p: Pid, d: Draw)
    requires !Commits(StageOf(s, p))
    ensures SameTables(s, PostStep(s, p, d))
  {
    GotoTables(p);
    hide Goto, Storable;
  }

  lemma AuthorIsQuiet(s: State, p: Pid, d: Draw)
    requires !Commits(StageOf(s, p))
    ensures SameTables(s, AuthorStep(s, p, d))
  {
    GotoTables(p);
    hide Goto, EmailTaken, Referenced, Storable, StorableOption;
  }

  /** Which step a commit is. */
  lemma CommitIs(s: State, p: Pid, d: Draw)
    requires Commits(StageOf(s, p))
    ensures var st, s' := StageOf(s, p), AdvanceStep(s, p, d);
            && (st.PatchCommit? ==> s' == PatchCommitStep(s, p, st.id, st.edit, st.row, st.out))
            && (st.PostCommit? ==> s' == PostCommitStep(s, p, st.id, st.row, st.author))
            && (st.DropCommit? ==> s' == DropCommitStep(s, p, st.id, true))
            && (InAuthors(st) ==> s' == AuthorStep(s, p, d))
            && (!st.PatchCommit? && !st.PostCommit? && !st.DropCommit? ==> InAuthors(st))
  {
    hide PatchCommitStep, PostCommitStep, DropCommitStep, AuthorStep, GetStep;
  }

  lemma AuthorCommitIs(s: State, p: Pid, d: Draw)
    requires Commits(StageOf(s, p)) && InAuthors(StageOf(s, p))
    ensures var st, s' := StageOf(s, p), AuthorStep(s, p, d);
            && (st.AddCommit? ==> s' == AddCommitStep(s, p, st.id, st.added))
            && (st.EditCommit? ==> s' == EditCommitStep(s, p, st.id, st.newName, st.newEmail, st.before))
            && (st.RemoveCommit? ==> s' == RemoveCommitStep(s, p, st.id, st.removed))
            && (st.AddCommit? || st.EditCommit? || st.RemoveCommit?)
  {
    hide AddCommitStep, EditCommitStep, RemoveCommitStep;
  }

  /** The author endpoints leave the messages alone. */
  lemma AuthorsKeepMessages(s: State, p: Pid, d: Draw)
    ensures AuthorStep(s, p, d).db.messages == s.db.messages
  {
    hide AuthorStep, Changed, Goto;
    if !Commits(StageOf(s, p)) {
      AuthorIsQuiet(s, p, d);
    } else if InAuthors(StageOf(s, p)) {
      AuthorCommitIs(s, p, d);
      GotoTables(p);
    } else {
      NoAuthorStep(s, p, d);
    }
  }

  lemma NoAuthorStep(s: State, p: Pid, d: Draw)
    requires !InAuthors(StageOf(s, p))
    ensures AuthorStep(s, p, d) == s
  {
  }

  lemma CommitsWrote(s: State, p: Pid, d: Draw)
    requires Commits(StageOf(s, p))
    ensures AdvanceStep(s, p, d).wrote == s.wrote[p := |s.log|]
  {
    GotoTables(p);
    hide Extended, WithAuthor, Changed, GetStep, Goto;
  }

  // ---- every step --------------------------------------------------------------------------

  /** The tables change only together with the log. */
  predicate LogStep(s: State, s': State) {
    Logged(s, s') || (s'.log == s.log && s'.db == s.db)
  }

  lemma GetKeeps(s: State, p: Pid)
    requires Core(s) && InGet(StageOf(s, p))
    ensures Core(GetStep(s, p)) && Frame(s, GetStep(s, p), p) && LogStep(s, GetStep(s, p))
  {
    hide Core, Frame, Logged;
    match StageOf(s, p)
    case GetProbe(id) => GetProbeKeeps(s, p, id);
    case GetLoad(id) => GetLoadKeeps(s, p, id);
    case GetFill(id, body, t) => GetFillKeeps(s, p, id, body, t);
  }

  lemma PatchKeeps(s: State, p: Pid, d: Draw)
    requires Core(s) && InPatch(StageOf(s, p)) && CanAdvance(s, p, d)
    ensures Core(PatchStep(s, p)) && Frame(s, PatchStep(s, p), p) && LogStep(s, PatchStep(s, p))
  {
    hide Core, Frame, Logged, PatchUpdateStep, PatchReloadStep, PatchCommitStep, PatchEvictStep, PatchHealStep,
         PatchCheckStep, Goto, CanUpdate, CanDrop, CanInsert, CanAdd, CanEnter, CanEdit, CanIndex, CanRemove, CanCheck;
    if !Commits(StageOf(s, p)) { PatchIsQuiet(s, p); }
    match StageOf(s, p)
    case PatchUpdate(id, edit, read) => PatchUpdateKeeps(s, p, id, edit, read);
    case PatchReload(id, edit, row) => PatchReloadKeeps(s, p, id, edit, row);
    case PatchCommit(id, edit, row, out) => PatchCommitKeeps(s, p, id, edit, row, out);
    case PatchEvict(id, edit, out, k) => PatchEvictKeeps(s, p, id, edit, out, k);
    case PatchRollback(id, edit, read) => PatchRollbackKeeps(s, p, id, edit, read);
    case PatchHeal(id, edit, read) => PatchHealKeeps(s, p, id, edit, read);
    case PatchCheck(id, edit, read) => PatchCheckKeeps(s, p, id, edit, read);
  }

  lemma DropKeeps(s: State, p: Pid, d: Draw)
    requires Core(s) && InDrop(StageOf(s, p)) && CanAdvance(s, p, d)
    ensures Core(DropStep(s, p)) && Frame(s, DropStep(s, p), p) && LogStep(s, DropStep(s, p))
  {
    hide Core, Frame, Logged;
    match StageOf(s, p)
    case DropRow(id) => DropRowKeeps(s, p, id);
    case DropCommit(id, found) => if found { DropCommitKeeps(s, p, id); } else { DropNothingKeeps(s, p, id); }
    case DropEvict(id, deleted) =>
      if deleted.Some? { DropEvictKeeps(s, p, id, deleted.value); } else { DropEvictNothingKeeps(s, p, id); }
  }

  lemma PostKeeps(s: State, p: Pid, d: Draw)
    requires Core(s) && InPost(StageOf(s, p)) && CanAdvance(s, p, d)
    ensures Core(PostStep(s, p, d)) && Frame(s, PostStep(s, p, d), p) && LogStep(s, PostStep(s, p, d))
  {
    hide Core, Frame, Logged;
    match StageOf(s, p)
    case PostAuthor(title, content, authorId) => PostAuthorKeeps(s, p, title, content, authorId);
    case PostInsert(title, content, author) => PostInsertKeeps(s, p, title, content, author, d);
    case PostCommit(id, row, author) => PostCommitKeeps(s, p, id, row, author);
  }

  lemma AuthorKeeps(s: State, p: Pid, d: Draw)
    requires Core(s) && InAuthors(StageOf(s, p)) && CanAdvance(s, p, d)
    ensures Core(AuthorStep(s, p, d)) && Frame(s, AuthorStep(s, p, d), p)
    ensures LogStep(s, AuthorStep(s, p, d))
  {
    hide Core, Frame, Logged, AuthorStep, CanAdvance;
    if Commits(StageOf(s, p)) {
      AuthorCommitKeeps(s, p, d);
    } else {
      AuthorStatementKeeps(s, p, d);
      AuthorIsQuiet(s, p, d);
    }
  }

  lemma AuthorStatementKeeps(s: State, p: Pid, d: Draw)
    requires Core(s) && InAuthors(StageOf(s, p)) && CanAdvance(s, p, d) && !Commits(StageOf(s, p))
    ensures Core(AuthorStep(s, p, d)) && Frame(s, AuthorStep(s, p, d), p)
  {
    hide Core, Frame, AddAuthorStep, AddIndexStep, ReadAuthorStep, EditAuthorStep, EditIndexStep, RemoveAuthorStep,
         RemoveCheckStep, CanAdd, CanEnter, CanEdit, CanIndex, CanRemove, CanCheck, Changed;
    match StageOf(s, p)
    case AddAuthor(name, email) => AddAuthorKeeps(s, p, name, email, d);
    case AddIndex(id, a) => AddIndexKeeps(s, p, id, a);
    case ReadAuthor(id) => ReadAuthorKeeps(s, p, id);
    case EditAuthor(id, name, email) => EditAuthorKeeps(s, p, id, name, email);
    case EditIndex(id, name, email, before) => EditIndexKeeps(s, p, id, name, email, before);
    case RemoveAuthor(id) => RemoveAuthorKeeps(s, p, id);
    case RemoveCheck(id, target) => RemoveCheckKeeps(s, p, id, target);
    case RemoveCommit(id, removed) => RemoveNothingKeeps(s, p, id);
  }

  lemma AuthorCommitKeeps(s: State, p: Pid, d: Draw)
    requires Core(s) && InAuthors(StageOf(s, p)) && Commits(StageOf(s, p))
    ensures Core(AuthorStep(s, p, d)) && Frame(s, AuthorStep(s, p, d), p) && Logged(s, AuthorStep(s, p, d))
  {
    AuthorCommitIs(s, p, d);
    hide Core, Frame, Logged, AuthorStep, AddCommitStep, EditCommitStep, RemoveCommitStep;
    match StageOf(s, p)
    case AddCommit(id, a) => AddCommitKeeps(s, p, id, a);
    case EditCommit(id, name, email, before) => EditCommitKeeps(s, p, id, name, email, before);
    case RemoveCommit(id, removed) => RemoveCommitKeeps(s, p, id, removed);
  }

  lemma AdvanceKeeps(s: State, p: Pid, d: Draw)
    requires Core(s) && CanAdvance(s, p, d)
    ensures Core(AdvanceStep(s, p, d)) && Frame(s, AdvanceStep(s, p, d), p)
    ensures LogStep(s, AdvanceStep(s, p, d))
  {
    hide Core, Frame, LogStep, GetStep, PatchStep, DropStep, PostStep, AuthorStep;
    var st := StageOf(s, p);
    if InGet(st) { GetKeeps(s, p); }
    else if InPatch(st) { PatchKeeps(s, p, d); }
    else if InDrop(st) { DropKeeps(s, p, d); }
    else if InPost(st) { PostKeeps(s, p, d); }
    else if InAuthors(st) { AuthorKeeps(s, p, d); }
    else {
      ClosingKeeps(s, p, st.reply);
      QuietLog(s, AdvanceStep(s, p, d));
    }
  }

  lemma QuietLog(s: State, s': State)
    requires s'.log == s.log && s'.db == s.db
    ensures LogStep(s, s')
  {
  }

  lemma StepFrame(s: State, a: Action, s': State)
    requires Inv(s) && Step(s, a, s')
    ensures Grows(s, s') && TablesFrame(s, s', Exclusive(StageOf(s, a.p)), Shared(StageOf(s, a.p)))
  {
    StepKeeps(s, a, s');
    hide Inv, Grows, TablesFrame;
  }

  /** Every step of every interleaving keeps the invariant, stays within the frame of its process,
      and changes the tables only by committing a request that succeeds. */
  lemma StepKeeps(s: State, a: Action, s': State)
    requires Inv(s) && Step(s, a, s')
    ensures Inv(s') && Frame(s, s', a.p) && LogStep(s, s')
  {
    hide Core, Frame, Logged, LogOk, CanAdvance, AdvanceStep;
    match a {
      case Start(p, r) => StartKeeps(s, p, r);
      case Advance(p, d) => AdvanceKeeps(s, p, d);
      case Fail(p) => AbandonKeeps(s, p, Closing(ServerError));
      case Crash(p) => AbandonKeeps(s, p, Idle);
    }
    if Logged(s, s') {
      LoggedIsReplayed(s, s');
    } else {
      SameLog(s, s');
    }
  }

  /** A step moves no other process. */
  lemma StepOthers(s: State, a: Action, s': State, q: Pid)
    requires Inv(s) && Step(s, a, s') && q != a.p
    ensures StageOf(s', q) == StageOf(s, q) && (q in s'.procs <==> q in s.procs)
  {
    hide Inv, Step;
    StepKeeps(s, a, s');
  }

  lemma SameLog(s: State, s': State)
    requires LogOk(s) && s'.log == s.log && s'.db == s.db
    ensures LogOk(s')
  {
  }

  lemma InitKeeps(s: State)
    requires Init(s)
    ensures Inv(s)
  {
  }

  lemma {:induction false} RunKeeps(states: seq<State>, actions: seq<Action>, i: nat)
    requires IsRun(states, actions) && Inv(states[0]) && i < |states|
    ensures Inv(states[i])
  {
    hide Inv, Step;
    if i > 0 {
      RunKeeps(states, actions, i - 1);
      StepKeeps(states[i - 1], actions[i - 1], states[i]);
    }
  }

  /** Every state of every execution, from the empty database on, satisfies the invariant. */
  lemma ReachableIsOk(states: seq<State>, actions: seq<Action>, i: nat)
    requires IsExecution(states, actions) && i < |states|
    ensures Inv(states[i])
  {
    hide Inv;
    InitKeeps(states[0]);
    RunKeeps(states, actions, i);
  }
}
