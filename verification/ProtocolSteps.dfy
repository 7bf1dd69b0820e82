/** Every step of the service keeps its invariant and stays within its frame. */
module ProtocolSteps {
  import opened Validation
  import opened Relational
  import opened Protocol
  import opened ProtocolInvariant

  // ---- putting a step together -------------------------------------------------------------

  predicate CompatibleWithOthers(s: State, q: Pid, st: Stage) {
    forall p | p in s.procs && p != q :: Compatible(s.procs[p], st)
  }

  /** Each entry was there before, or is right as it was put. */
  predicate CacheStep(s: State, s': State) {
    forall id | id in s'.cache :: SameAt(s.cache, s'.cache, id) || EntryOk(s', id, s'.cache[id])
  }

  /** The pending evictions of a process are the one its stage owes. */
  predicate OwesOnly(s: State, q: Pid) {
    forall k | 0 <= k < |s.commits| ::
      s.commits[k].owner == q && s.commits[k].eviction.Pending? ==> Owed(StageOf(s, q)) == Some(k)
  }

  lemma EntryStable(s: State, s': State, q: Pid, id: Id)
    requires HistoryOk(s) && Frame(s, s', q) && id in s.cache && id in s'.cache
    requires EntryOk(s, id, s.cache[id])
    ensures EntryOk(s', id, s.cache[id])
  {
    var e := s.cache[id];
    BodyStable(s, s', e.body);
    assert RowTracked(s, s', id);
    LoadStable(s, s', q, e.body, e.loadedAt);
  }

  lemma Assemble(s: State, s': State, q: Pid)
    requires Core(s) && Frame(s, s', q)
    requires Sound(s'.db) && HistoryOk(s') && SeenOk(s')
    requires CacheStep(s, s') && OwesOnly(s', q)
    requires StagesOk(s', {q}) && CompatibleWithOthers(s, q, s'.procs[q])
    ensures Core(s')
  {
    forall p | p in s'.procs
      ensures StageOk(s', p, s'.procs[p])
    {
      if p != q {
        assert q in s.procs ==> Compatible(s.procs[p], s.procs[q]);
        StageStable(s, s', q, p);
      }
    }
    forall id | id in s'.cache
      ensures EntryOk(s', id, s'.cache[id])
    {
      if SameAt(s.cache, s'.cache, id) {
        EntryStable(s, s', q, id);
      }
    }
    AssembleLocks(s, s', q);
    AssembleCommits(s, s', q);
  }

  lemma AssembleLocks(s: State, s': State, q: Pid)
    requires LocksOk(s) && ProcsFrame(s, s', q) && CompatibleWithOthers(s, q, s'.procs[q])
    ensures LocksOk(s')
  {
    forall a, b | a in s'.procs && b in s'.procs && a != b
      ensures Compatible(s'.procs[a], s'.procs[b])
    {
      if a != q && b != q {
        assert Compatible(s.procs[a], s.procs[b]);
      } else if a == q {
        assert Compatible(s.procs[b], s'.procs[q]);
      } else {
        assert Compatible(s.procs[a], s'.procs[q]);
      }
    }
  }

  lemma AssembleCommits(s: State, s': State, q: Pid)
    requires CommitsOk(s) && s.clock < s'.clock
    requires ProcsFrame(s, s', q) && CommitsFrame(s, s', q) && OwesOnly(s', q)
    ensures CommitsOk(s')
  {
  }

  // ---- steps that change neither the tables nor the history --------------------------------

  predicate Quiet(s: State, s': State, q: Pid) {
    && s'.db == s.db && s'.history == s.history && s'.seen == s.seen
    && s'.commits == s.commits && s'.log == s.log
    && s'.clock == s.clock + 1
    && q in s'.procs && s'.procs == s.procs[q := s'.procs[q]]
    && (s'.wrote == s.wrote || s'.wrote == s.wrote - {q})
    && Owed(StageOf(s, q)).None?
  }

  lemma QuietStep(s: State, s': State, q: Pid)
    requires Core(s) && Quiet(s, s', q) && CacheStep(s, s')
    requires StagesOk(s', {q}) && CompatibleWithOthers(s, q, s'.procs[q])
    ensures Core(s') && Frame(s, s', q)
  {
    QuietFrame(s, s', q);
    assert Sound(s'.db) && HistoryOk(s') && SeenOk(s');
    Assemble(s, s', q);
  }

  lemma QuietFrame(s: State, s': State, q: Pid)
    requires Quiet(s, s', q)
    ensures Frame(s, s', q)
  {
  }

  /** A step that only moves its process on. */
  lemma GotoKeeps(s: State, q: Pid, st: Stage)
    requires Core(s) && Owed(StageOf(s, q)).None?
    requires StagesOk(Goto(s, q, st), {q}) && CompatibleWithOthers(s, q, st)
    ensures Core(Goto(s, q, st)) && Frame(s, Goto(s, q, st), q)
  {
    hide StageOk, Sound, CommitsOk;
    QuietStep(s, Goto(s, q, st), q);
  }

  /** Most stages hold no lock. */
  lemma GotoUnlocked(s: State, q: Pid, st: Stage)
    requires Core(s) && Owed(StageOf(s, q)).None?
    requires StagesOk(Goto(s, q, st), {q}) && Exclusive(st) == {} && Shared(st) == {}
    ensures Core(Goto(s, q, st)) && Frame(s, Goto(s, q, st), q)
  {
    hide Core, Frame, StagesOk;
    GotoKeeps(s, q, st);
  }

  lemma CoreParts(s: State, p: Pid)
    requires Core(s) && p in s.procs
    ensures StageOk(s, p, s.procs[p]) && CompatibleWithOthers(s, p, s.procs[p])
    ensures Sound(s.db) && HistoryOk(s) && SeenOk(s) && CacheOk(s) && CommitsOk(s)
  {
    hide StageOk, Sound, HistoryOk, SeenOk, CacheOk, CommitsOk;
  }

  /** A statement that fails: nothing is held any more. */
  lemma RefusalKeeps(s: State, p: Pid, status: int)
    requires Core(s) && p in s.procs && Owed(s.procs[p]).None? && p !in s.wrote && status >= 400
    ensures Core(Refusal(s, p, status)) && Frame(s, Refusal(s, p, status), p)
  {
    hide Core, Frame;
    GotoUnlocked(s, p, Closing(Reply(status, Nothing)));
  }

  lemma StartStage(s: State, p: Pid, r: Request)
    requires ValidRequest(r) && p !in s.wrote
    ensures StageOk(s, p, FirstStage(s, r))
  {
  }

  lemma StartStages(s: State, p: Pid, r: Request)
    ensures StagesOk(StartStep(s, p, r), {p})
  {
    CleanRequestIsValid(r);
    if CleanRequest(r).Some? {
      StartStage(StartStep(s, p, r), p, CleanRequest(r).value);
    }
  }

  lemma StartKeeps(s: State, p: Pid, r: Request)
    requires Core(s) && (StageOf(s, p).Idle? || StageOf(s, p).Done?)
    ensures Core(StartStep(s, p, r)) && Frame(s, StartStep(s, p, r), p)
  {
    hide Core, Frame, StagesOk, StartStep, Quiet, CacheStep, CompatibleWithOthers;
    StartStages(s, p, r);
    StartQuiet(s, p, r);
    QuietStep(s, StartStep(s, p, r), p);
  }

  lemma StartQuiet(s: State, p: Pid, r: Request)
    requires StageOf(s, p).Idle? || StageOf(s, p).Done?
    ensures var s' := StartStep(s, p, r);
            Quiet(s, s', p) && CacheStep(s, s') && CompatibleWithOthers(s, p, s'.procs[p])
  {
    if CleanRequest(r).Some? { FirstIsUnlocked(s, CleanRequest(r).value); }
    hide CleanRequest, FirstStage, Exclusive, Shared;
    DoneIsUnlocked();
  }

  lemma FirstIsUnlocked(s: State, r: Request)
    ensures Exclusive(FirstStage(s, r)) == {} && Shared(FirstStage(s, r)) == {}
  {
    hide Known;
  }

  lemma DoneIsUnlocked()
    ensures forall r :: Exclusive(Done(r)) == {} && Shared(Done(r)) == {}
  {
  }

  lemma GetProbeStage(s: State, p: Pid, id: Id)
    requires CacheOk(s) && StageOk(s, p, GetProbe(id))
    ensures StagesOk(GetProbeStep(s, p, id), {p})
  {
    hide LoadOk;
    if id in s.cache {
      assert EntryOk(s, id, s.cache[id]);
      BodyStable(s, GetProbeStep(s, p, id), s.cache[id].body);
    }
  }

  lemma GetProbeKeeps(s: State, p: Pid, id: Id)
    requires Core(s) && StageOf(s, p) == GetProbe(id)
    ensures Core(GetProbeStep(s, p, id)) && Frame(s, GetProbeStep(s, p, id), p)
  {
    hide Core, Frame, StagesOk, StageOk, Sound, HistoryOk, SeenOk, CacheOk, CommitsOk, CacheStep;
    CoreParts(s, p);
    GetProbeStage(s, p, id);
    GotoUnlocked(s, p, GetProbeStep(s, p, id).procs[p]);
  }

  lemma LoadedIsOk(s: State, s': State, id: Id)
    requires HistoryOk(s) && SeenOk(s) && CommitsOk(s) && Load(s.db, id).Found?
    requires s'.db == s.db && s'.history == s.history && s'.seen == s.seen
    requires s'.commits == s.commits && s.clock < s'.clock
    ensures var body := Load(s.db, id).message;
            body.id == id && BodyOk(s', body) && LoadOk(s', body, s.clock)
  {
    assert Chain(s.history[id]);
  }

  lemma GetLoadStage(s: State, p: Pid, id: Id)
    requires HistoryOk(s) && SeenOk(s) && CommitsOk(s) && p !in s.wrote && Load(s.db, id).Found?
    ensures StagesOk(Goto(s, p, GetFill(id, Load(s.db, id).message, s.clock)), {p})
  {
    hide HistoryOk, SeenOk, CommitsOk, BodyOk, LoadOk, Load;
    LoadedIsOk(s, Goto(s, p, GetFill(id, Load(s.db, id).message, s.clock)), id);
  }

  lemma AnswerKeeps(s: State, p: Pid, status: int)
    requires Core(s) && p in s.procs && Owed(s.procs[p]).None? && p !in s.wrote
    ensures Core(Answer(s, p, status, Nothing)) && Frame(s, Answer(s, p, status, Nothing), p)
  {
    hide Core, Frame;
    GotoUnlocked(s, p, Done(Reply(status, Nothing)));
  }

  lemma GetLoadKeeps(s: State, p: Pid, id: Id)
    requires Core(s) && StageOf(s, p) == GetLoad(id)
    ensures Core(GetLoadStep(s, p, id)) && Frame(s, GetLoadStep(s, p, id), p)
  {
    hide Core, Frame, StagesOk, Sound, HistoryOk, SeenOk, CacheOk, CommitsOk, Load;
    CoreParts(s, p);
    match Load(s.db, id)
    case NoRow => AnswerKeeps(s, p, 404);
    case NoAuthor => AnswerKeeps(s, p, 500);
    case Found(body) =>
      GetLoadStage(s, p, id);
      GotoUnlocked(s, p, GetFill(id, body, s.clock));
  }

  lemma LoadUnchanged(s: State, s': State, body: MessageOut, loadedAt: nat)
    requires LoadOk(s, body, loadedAt)
    requires s'.db == s.db && s'.commits == s.commits && s.clock < s'.clock
    ensures LoadOk(s', body, loadedAt)
  {
  }

  lemma GetFillStage(s: State, p: Pid, id: Id, body: MessageOut, loadedAt: nat)
    requires CommitsOk(s) && StageOk(s, p, GetFill(id, body, loadedAt))
    ensures var s' := GetFillStep(s, p, id, body, loadedAt);
            StagesOk(s', {p}) && CacheStep(s, s')
  {
    var s' := GetFillStep(s, p, id, body, loadedAt);
    BodyStable(s, s', body);
    LoadUnchanged(s, s', body, loadedAt);
    assert EntryOk(s', id, s'.cache[id]);
  }

  lemma GetFillKeeps(s: State, p: Pid, id: Id, body: MessageOut, loadedAt: nat)
    requires Core(s) && StageOf(s, p) == GetFill(id, body, loadedAt)
    ensures Core(GetFillStep(s, p, id, body, loadedAt))
    ensures Frame(s, GetFillStep(s, p, id, body, loadedAt), p)
  {
    hide Core, Frame, StagesOk, StageOk, Sound, HistoryOk, SeenOk, CacheOk, CommitsOk, CacheStep;
    CoreParts(s, p);
    GetFillStage(s, p, id, body, loadedAt);
    QuietStep(s, GetFillStep(s, p, id, body, loadedAt), p);
  }

  lemma MissPassed(s: State, id: Id, edit: Edit, read: bool)
    requires HistoryOk(s) && !UpdateMatches(s, id, edit)
    requires read ==> Known(s, id, edit.version)
    ensures Passed(s, id, edit, read)
  {
    if id in s.db.messages {
      assert Chain(s.history[id]);
    }
  }

  lemma PatchMissStage(s: State, p: Pid, id: Id, edit: Edit, read: bool)
    requires p !in s.wrote && Passed(s, id, edit, read)
    ensures StagesOk(Goto(s, p, PatchRollback(id, edit, read)), {p})
  {
  }

  lemma PatchMatchStage(s: State, p: Pid, id: Id, edit: Edit, row: Message)
    requires p !in s.wrote && Held(s, id, edit, row)
    ensures StagesOk(Goto(s, p, PatchReload(id, edit, row)), {p})
  {
    hide ValidEdit, StorableEdit;
  }

  lemma PatchUpdateKeeps(s: State, p: Pid, id: Id, edit: Edit, read: bool)
    requires Core(s) && StageOf(s, p) == PatchUpdate(id, edit, read) && CanUpdate(s, p, id, edit)
    ensures Core(PatchUpdateStep(s, p, id, edit, read))
    ensures Frame(s, PatchUpdateStep(s, p, id, edit, read), p)
  {
    hide Core, Frame, StagesOk, Sound, HistoryOk, SeenOk, CacheOk, CommitsOk, StorableEdit, UpdateMatches, ValidEdit,
         Known, Passed;
    CoreParts(s, p);
    if !StorableEdit(edit) {
      RefusalKeeps(s, p, 500);
    } else if !UpdateMatches(s, id, edit) {
      MissPassed(s, id, edit, read);
      PatchMissStage(s, p, id, edit, read);
      GotoUnlocked(s, p, PatchRollback(id, edit, read));
    } else if edit.version == MAX_INT4 {
      RefusalKeeps(s, p, 500);
    } else {
      PatchMatchKeeps(s, p, id, edit, read);
    }
  }

  lemma PatchMatchKeeps(s: State, p: Pid, id: Id, edit: Edit, read: bool)
    requires Core(s) && StageOf(s, p) == PatchUpdate(id, edit, read) && CanUpdate(s, p, id, edit)
    requires StorableEdit(edit) && UpdateMatches(s, id, edit) && edit.version != MAX_INT4
    ensures var st := PatchReload(id, edit, Edited(s.db.messages[id], edit));
            Core(Goto(s, p, st)) && Frame(s, Goto(s, p, st), p)
  {
    hide Core, Frame, StagesOk, Sound, HistoryOk, SeenOk, CacheOk, CommitsOk, StorableEdit, Known;
    CoreParts(s, p);
    assert ValidEdit(edit);
    hide ValidEdit;
    PatchMatchStage(s, p, id, edit, Edited(s.db.messages[id], edit));
    GotoKeeps(s, p, PatchReload(id, edit, Edited(s.db.messages[id], edit)));
  }

  lemma PatchReloadStage(s: State, p: Pid, id: Id, edit: Edit, row: Message)
    requires Sound(s.db) && SeenOk(s) && StageOk(s, p, PatchReload(id, edit, row))
    ensures StagesOk(PatchReloadStep(s, p, id, edit, row), {p})
    ensures PatchReloadStep(s, p, id, edit, row).procs[p].PatchCommit?
  {
    hide ValidEdit, ValidMessage, ValidAuthor;
    assert row.authorId in s.db.authors;
    assert AuthorView(row.authorId, s.db.authors[row.authorId]) in s.seen;
  }

  lemma PatchReloadKeeps(s: State, p: Pid, id: Id, edit: Edit, row: Message)
    requires Core(s) && StageOf(s, p) == PatchReload(id, edit, row)
    ensures Core(PatchReloadStep(s, p, id, edit, row)) && Frame(s, PatchReloadStep(s, p, id, edit, row), p)
  {
    hide Core, Frame, StagesOk, StageOk, Sound, HistoryOk, SeenOk, CacheOk, CommitsOk, CacheStep;
    CoreParts(s, p);
    PatchReloadStage(s, p, id, edit, row);
    SameLocks(s, p, PatchReloadStep(s, p, id, edit, row).procs[p]);
    GotoKeeps(s, p, PatchReloadStep(s, p, id, edit, row).procs[p]);
  }

  lemma SameLocks(s: State, p: Pid, st: Stage)
    requires p in s.procs && CompatibleWithOthers(s, p, s.procs[p])
    requires Exclusive(st) == Exclusive(s.procs[p]) && Shared(st) == Shared(s.procs[p])
    ensures CompatibleWithOthers(s, p, st)
  {
  }

  lemma PatchRollbackKeeps(s: State, p: Pid, id: Id, edit: Edit, read: bool)
    requires Core(s) && StageOf(s, p) == PatchRollback(id, edit, read)
    ensures Core(Goto(s, p, PatchHeal(id, edit, read)))
    ensures Frame(s, Goto(s, p, PatchHeal(id, edit, read)), p)
  {
    hide Core, Frame, Sound, HistoryOk, SeenOk, CacheOk, CommitsOk;
    CoreParts(s, p);
    GotoUnlocked(s, p, PatchHeal(id, edit, read));
  }

  /** An eviction that settles no commit. */
  lemma ClearStep(s: State, p: Pid, id: Id, st: Stage)
    requires Core(s) && Owed(StageOf(s, p)).None?
    requires Exclusive(st) == {} && Shared(st) == {} && Owed(st).None?
    requires StagesOk(Goto(s.(cache := s.cache - {id}), p, st), {p})
    ensures Core(Goto(s.(cache := s.cache - {id}), p, st))
    ensures Frame(s, Goto(s.(cache := s.cache - {id}), p, st), p)
  {
    hide Core, Frame, StagesOk;
    QuietStep(s, Goto(s.(cache := s.cache - {id}), p, st), p);
  }

  lemma PatchHealKeeps(s: State, p: Pid, id: Id, edit: Edit, read: bool)
    requires Core(s) && StageOf(s, p) == PatchHeal(id, edit, read)
    ensures Core(PatchHealStep(s, p, id, edit, read)) && Frame(s, PatchHealStep(s, p, id, edit, read), p)
  {
    hide Core, Frame, Sound, HistoryOk, SeenOk, CacheOk, CommitsOk;
    CoreParts(s, p);
    ClearStep(s, p, id, PatchCheck(id, edit, read));
  }

  lemma PatchCheckKeeps(s: State, p: Pid, id: Id, edit: Edit, read: bool)
    requires Core(s) && StageOf(s, p) == PatchCheck(id, edit, read)
    ensures Core(PatchCheckStep(s, p, id)) && Frame(s, PatchCheckStep(s, p, id), p)
  {
    hide Core, Frame, Sound, HistoryOk, SeenOk, CacheOk, CommitsOk;
    CoreParts(s, p);
    GotoUnlocked(s, p, PatchCheckStep(s, p, id).procs[p]);
  }

  lemma DropRowKeeps(s: State, p: Pid, id: Id)
    requires Core(s) && StageOf(s, p) == DropRow(id) && CanDrop(s, p, id)
    ensures var st := DropCommit(id, id in s.db.messages);
            Core(Goto(s, p, st)) && Frame(s, Goto(s, p, st), p)
  {
    hide Core, Frame, Sound, HistoryOk, SeenOk, CacheOk, CommitsOk;
    CoreParts(s, p);
    GotoKeeps(s, p, DropCommit(id, id in s.db.messages));
  }

  lemma DropNothingKeeps(s: State, p: Pid, id: Id)
    requires Core(s) && StageOf(s, p) == DropCommit(id, false)
    ensures Core(DropCommitStep(s, p, id, false)) && Frame(s, DropCommitStep(s, p, id, false), p)
  {
    hide Core, Frame, Sound, HistoryOk, SeenOk, CacheOk, CommitsOk;
    CoreParts(s, p);
    GotoUnlocked(s, p, DropEvict(id, None));
  }

  lemma DropEvictNothingKeeps(s: State, p: Pid, id: Id)
    requires Core(s) && StageOf(s, p) == DropEvict(id, None)
    ensures Core(DropEvictStep(s, p, id, None)) && Frame(s, DropEvictStep(s, p, id, None), p)
  {
    hide Core, Frame, Sound, HistoryOk, SeenOk, CacheOk, CommitsOk;
    CoreParts(s, p);
    ClearStep(s, p, id, Done(Reply(404, Nothing)));
  }

  lemma PostAuthorStage(s: State, p: Pid, title: string, content: string, authorId: Id)
    requires SeenOk(s) && StageOk(s, p, PostAuthor(title, content, authorId))
    ensures StagesOk(PostAuthorStep(s, p, title, content, authorId), {p})
  {
    hide ValidText;
  }

  lemma PostAuthorKeeps(s: State, p: Pid, title: string, content: string, authorId: Id)
    requires Core(s) && StageOf(s, p) == PostAuthor(title, content, authorId)
    ensures Core(PostAuthorStep(s, p, title, content, authorId))
    ensures Frame(s, PostAuthorStep(s, p, title, content, authorId), p)
  {
    hide Core, Frame, StagesOk, StageOk, Sound, HistoryOk, SeenOk, CacheOk, CommitsOk, CacheStep;
    CoreParts(s, p);
    PostAuthorStage(s, p, title, content, authorId);
    GotoUnlocked(s, p, PostAuthorStep(s, p, title, content, authorId).procs[p]);
  }

  lemma PostInsertStage(s: State, p: Pid, title: string, content: string, author: AuthorOut, d: Draw)
    requires StageOk(s, p, PostInsert(title, content, author)) && CanInsert(s, p, author.id, d)
    requires Storable(title) && Storable(content) && author.id in s.db.authors
    ensures var st := PostCommit(d.newId, Message(title, content, author.id, d.now, 0), author);
            StagesOk(Goto(s, p, st), {p}) && CompatibleWithOthers(s, p, st)
  {
    hide ValidText;
  }

  lemma PostInsertKeeps(s: State, p: Pid, title: string, content: string, author: AuthorOut, d: Draw)
    requires Core(s) && StageOf(s, p) == PostInsert(title, content, author)
    requires Storable(title) && Storable(content) ==> CanInsert(s, p, author.id, d)
    ensures Core(PostInsertStep(s, p, title, content, author, d))
    ensures Frame(s, PostInsertStep(s, p, title, content, author, d), p)
  {
    hide Core, Frame, StagesOk, Sound, HistoryOk, SeenOk, CacheOk, CommitsOk, CanInsert, ValidText, Storable;
    CoreParts(s, p);
    if !Storable(title) || !Storable(content) {
      RefusalKeeps(s, p, 500);
    } else if author.id !in s.db.authors {
      RefusalKeeps(s, p, 404);
    } else {
      PostInsertStage(s, p, title, content, author, d);
      GotoKeeps(s, p, PostCommit(d.newId, Message(title, content, author.id, d.now, 0), author));
    }
  }

  lemma AddAuthorStage(s: State, p: Pid, name: string, email: string, d: Draw)
    requires SeenOk(s) && StageOk(s, p, AddAuthor(name, email)) && CanAdd(s, p, d)
    requires Storable(name) && Storable(email)
    ensures var st := AddIndex(d.newId, Author(name, email, d.now));
            StagesOk(Goto(s, p, st), {p}) && CompatibleWithOthers(s, p, st)
  {
    hide ValidText, ValidEmail;
    assert forall a | a in s.db.authors :: a == AuthorView(a, s.db.authors[a]).id != d.newId;
  }

  lemma AddAuthorKeeps(s: State, p: Pid, name: string, email: string, d: Draw)
    requires Core(s) && StageOf(s, p) == AddAuthor(name, email) && CanAdd(s, p, d)
    ensures Core(AddAuthorStep(s, p, name, email, d)) && Frame(s, AddAuthorStep(s, p, name, email, d), p)
  {
    hide Core, Frame, StagesOk, Sound, HistoryOk, SeenOk, CacheOk, CommitsOk, CanAdd;
    CoreParts(s, p);
    if Storable(name) && Storable(email) {
      AddAuthorStage(s, p, name, email, d);
      GotoKeeps(s, p, AddIndex(d.newId, Author(name, email, d.now)));
    } else {
      RefusalKeeps(s, p, 500);
    }
  }

  lemma AddIndexStage(s: State, p: Pid, id: Id, a: Author)
    requires StageOk(s, p, AddIndex(id, a)) && CompatibleWithOthers(s, p, AddIndex(id, a))
    requires CanEnter(s, p, a.email) && !EmailTaken(s.db.authors, a.email)
    ensures StagesOk(Goto(s, p, AddCommit(id, a)), {p}) && CompatibleWithOthers(s, p, AddCommit(id, a))
  {
    EntryIsCompatible(s, p, id, a);
    hide ValidAuthor, EmailTaken, CanEnter, CompatibleWithOthers;
  }

  lemma EntryIsCompatible(s: State, p: Pid, id: Id, a: Author)
    requires CompatibleWithOthers(s, p, AddIndex(id, a)) && CanEnter(s, p, a.email)
    ensures CompatibleWithOthers(s, p, AddCommit(id, a))
  {
    forall q | q in s.procs && q != p
      ensures Compatible(s.procs[q], AddCommit(id, a))
    {
      assert Compatible(s.procs[q], AddIndex(id, a));
    }
  }

  lemma AddIndexKeeps(s: State, p: Pid, id: Id, a: Author)
    requires Core(s) && StageOf(s, p) == AddIndex(id, a) && CanEnter(s, p, a.email)
    ensures Core(AddIndexStep(s, p, id, a)) && Frame(s, AddIndexStep(s, p, id, a), p)
  {
    hide Core, Frame, StagesOk, Sound, HistoryOk, SeenOk, CacheOk, CommitsOk, CompatibleWithOthers, EmailTaken;
    CoreParts(s, p);
    if EmailTaken(s.db.authors, a.email) {
      RefusalKeeps(s, p, 409);
    } else {
      AddIndexStage(s, p, id, a);
      GotoKeeps(s, p, AddCommit(id, a));
    }
  }

  lemma ReadAuthorStage(s: State, p: Pid, id: Id)
    requires StageOk(s, p, ReadAuthor(id))
    ensures StagesOk(ReadAuthorStep(s, p, id), {p})
  {
  }

  lemma ReadAuthorLands(s: State, p: Pid, id: Id)
    ensures var s' := ReadAuthorStep(s, p, id);
            p in s'.procs && s'.procs[p].Done? && s' == Goto(s, p, s'.procs[p])
  {
  }

  lemma ReadAuthorKeeps(s: State, p: Pid, id: Id)
    requires Core(s) && StageOf(s, p) == ReadAuthor(id)
    ensures Core(ReadAuthorStep(s, p, id)) && Frame(s, ReadAuthorStep(s, p, id), p)
  {
    hide Core, Frame, StagesOk, StageOk, Sound, HistoryOk, SeenOk, CacheOk, CommitsOk, CacheStep;
    CoreParts(s, p);
    ReadAuthorStage(s, p, id);
    ReadAuthorLands(s, p, id);
    hide ReadAuthorStep;
    GotoUnlocked(s, p, ReadAuthorStep(s, p, id).procs[p]);
  }

  lemma EditAuthorStage(s: State, p: Pid, id: Id, name: Option<string>, email: Option<string>)
    requires StageOk(s, p, EditAuthor(id, name, email)) && CanEdit(s, p, id, name, email)
    requires StorableOption(name) && StorableOption(email) && id in s.db.authors
    ensures var st := EditIndex(id, name, email, s.db.authors[id]);
            StagesOk(Goto(s, p, st), {p}) && CompatibleWithOthers(s, p, st)
  {
    hide ValidRequest, StorableOption;
  }

  lemma EditAuthorKeeps(s: State, p: Pid, id: Id, name: Option<string>, email: Option<string>)
    requires Core(s) && StageOf(s, p) == EditAuthor(id, name, email)
    requires CanEdit(s, p, id, name, email)
    ensures Core(EditAuthorStep(s, p, id, name, email)) && Frame(s, EditAuthorStep(s, p, id, name, email), p)
  {
    hide Core, Frame, StagesOk, Sound, HistoryOk, SeenOk, CacheOk, CommitsOk, CanEdit, StorableOption, ValidRequest;
    CoreParts(s, p);
    if !StorableOption(name) || !StorableOption(email) {
      RefusalKeeps(s, p, 500);
    } else if id !in s.db.authors {
      AnswerKeeps(s, p, 404);
    } else {
      EditAuthorStage(s, p, id, name, email);
      GotoKeeps(s, p, EditIndex(id, name, email, s.db.authors[id]));
    }
  }

  lemma EditIndexStage(s: State, p: Pid, id: Id, name: Option<string>, email: Option<string>, before: Author)
    requires StageOk(s, p, EditIndex(id, name, email, before))
    requires !(email.Some? && EmailTaken(s.db.authors - {id}, email.value))
    ensures StagesOk(Goto(s, p, EditCommit(id, name, email, before)), {p})
  {
    hide ValidRequest, StorableOption;
    assert forall a | a in s.db.authors && a != id :: a in s.db.authors - {id};
  }

  lemma EditIndexLocks(s: State, p: Pid, id: Id, name: Option<string>, email: Option<string>, before: Author)
    requires CanIndex(s, p, before, Changed(before, name, email))
    requires CompatibleWithOthers(s, p, EditIndex(id, name, email, before))
    ensures CompatibleWithOthers(s, p, EditCommit(id, name, email, before))
  {
    hide EmailTaken, Changed;
    forall q | q in s.procs && q != p
      ensures Compatible(s.procs[q], EditCommit(id, name, email, before))
    {
      assert Compatible(s.procs[q], EditIndex(id, name, email, before));
    }
  }

  lemma EditIndexKeeps(s: State, p: Pid, id: Id, name: Option<string>, email: Option<string>, before: Author)
    requires Core(s) && StageOf(s, p) == EditIndex(id, name, email, before)
    requires CanIndex(s, p, before, Changed(before, name, email))
    ensures Core(EditIndexStep(s, p, id, name, email, before))
    ensures Frame(s, EditIndexStep(s, p, id, name, email, before), p)
  {
    hide Core, Frame, StagesOk, Sound, HistoryOk, SeenOk, CacheOk, CommitsOk, CompatibleWithOthers, EmailTaken,
         CanIndex, Editing;
    CoreParts(s, p);
    if email.Some? && EmailTaken(s.db.authors - {id}, email.value) {
      RefusalKeeps(s, p, 409);
    } else {
      EditIndexStage(s, p, id, name, email, before);
      EditIndexLocks(s, p, id, name, email, before);
      GotoKeeps(s, p, EditCommit(id, name, email, before));
    }
  }

  lemma RemoveAuthorStage(s: State, p: Pid, id: Id)
    requires StageOk(s, p, RemoveAuthor(id)) && CanRemove(s, p, id)
    ensures StagesOk(RemoveAuthorStep(s, p, id), {p})
    ensures CompatibleWithOthers(s, p, RemoveAuthorStep(s, p, id).procs[p])
  {
  }

  lemma RemoveAuthorKeeps(s: State, p: Pid, id: Id)
    requires Core(s) && StageOf(s, p) == RemoveAuthor(id) && CanRemove(s, p, id)
    ensures Core(RemoveAuthorStep(s, p, id)) && Frame(s, RemoveAuthorStep(s, p, id), p)
  {
    hide Core, Frame, StagesOk, StageOk, Sound, HistoryOk, SeenOk, CacheOk, CommitsOk, CacheStep;
    CoreParts(s, p);
    RemoveAuthorStage(s, p, id);
    GotoKeeps(s, p, RemoveAuthorStep(s, p, id).procs[p]);
  }

  lemma RemoveCheckStage(s: State, p: Pid, id: Id, target: Author)
    requires StageOk(s, p, RemoveCheck(id, target)) && CompatibleWithOthers(s, p, RemoveCheck(id, target))
    requires !Referenced(s.db, id)
    ensures var st := RemoveCommit(id, Some(target));
            StagesOk(Goto(s, p, st), {p}) && CompatibleWithOthers(s, p, st)
  {
    SameLocksRemoved(s, p, id, target);
    hide Referenced, CompatibleWithOthers;
  }

  lemma SameLocksRemoved(s: State, p: Pid, id: Id, target: Author)
    requires CompatibleWithOthers(s, p, RemoveCheck(id, target))
    ensures CompatibleWithOthers(s, p, RemoveCommit(id, Some(target)))
  {
    forall q | q in s.procs && q != p
      ensures Compatible(s.procs[q], RemoveCommit(id, Some(target)))
    {
      assert Compatible(s.procs[q], RemoveCheck(id, target));
    }
  }

  lemma RemoveCheckKeeps(s: State, p: Pid, id: Id, target: Author)
    requires Core(s) && StageOf(s, p) == RemoveCheck(id, target)
    ensures Core(RemoveCheckStep(s, p, id, target)) && Frame(s, RemoveCheckStep(s, p, id, target), p)
  {
    hide Core, Frame, StagesOk, Sound, HistoryOk, SeenOk, CacheOk, CommitsOk, CompatibleWithOthers, Referenced;
    CoreParts(s, p);
    if Referenced(s.db, id) {
      RefusalKeeps(s, p, 409);
    } else {
      RemoveCheckStage(s, p, id, target);
      GotoKeeps(s, p, RemoveCommit(id, Some(target)));
    }
  }

  lemma RemoveNothingKeeps(s: State, p: Pid, id: Id)
    requires Core(s) && StageOf(s, p) == RemoveCommit(id, None)
    ensures Core(RemoveCommitStep(s, p, id, None)) && Frame(s, RemoveCommitStep(s, p, id, None), p)
  {
    hide Core, Frame, Sound, HistoryOk, SeenOk, CacheOk, CommitsOk;
    CoreParts(s, p);
    GotoUnlocked(s, p, Done(Reply(404, Nothing)));
  }

  lemma ClosingKeeps(s: State, p: Pid, r: Reply)
    requires Core(s) && StageOf(s, p) == Closing(r)
    ensures Core(Goto(s, p, Done(r))) && Frame(s, Goto(s, p, Done(r)), p)
  {
    hide Core, Frame, Sound, HistoryOk, SeenOk, CacheOk, CommitsOk, StageOk, StagesOk;
    CoreParts(s, p);
    ClosedStage(s, p, r);
    GotoUnlocked(s, p, Done(r));
  }

  lemma ClosedStage(s: State, p: Pid, r: Reply)
    requires StageOk(s, p, Closing(r))
    ensures StagesOk(Goto(s, p, Done(r)), {p})
  {
    if r.payload.TheMessage? {
      BodyStable(s, Goto(s, p, Done(r)), r.payload.message);
    }
  }
}
