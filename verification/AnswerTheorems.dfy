/** The answers of the interleaved service are those of the service that serves one request at a
    time: every successful write is answered as its place in the commit order says. */
module AnswerTheorems {
  import opened Validation
  import opened Relational
  import opened Protocol
  import opened ProtocolInvariant
  import opened ProtocolCommits
  import opened RequestTheorems
  import opened ClientLoops

  // ---- which request a stage serves --------------------------------------------------------

  function StageRequest(st: Stage): Option<Request> {
    match st
    case GetProbe(id) => Some(GetMessage(id))
    case GetLoad(id) => Some(GetMessage(id))
    case GetFill(id, _, _) => Some(GetMessage(id))
    case PatchUpdate(id, edit, _) => Some(UpdateMessage(id, edit))
    case PatchReload(id, edit, _) => Some(UpdateMessage(id, edit))
    case PatchCommit(id, edit, _, _) => Some(UpdateMessage(id, edit))
    case PatchEvict(id, edit, _, _) => Some(UpdateMessage(id, edit))
    case PatchRollback(id, edit, _) => Some(UpdateMessage(id, edit))
    case PatchHeal(id, edit, _) => Some(UpdateMessage(id, edit))
    case PatchCheck(id, edit, _) => Some(UpdateMessage(id, edit))
    case DropRow(id) => Some(DeleteMessage(id))
    case DropCommit(id, _) => Some(DeleteMessage(id))
    case DropEvict(id, _) => Some(DeleteMessage(id))
    case PostAuthor(title, content, authorId) => Some(CreateMessage(title, content, authorId))
    case PostInsert(title, content, author) => Some(CreateMessage(title, content, author.id))
    case PostCommit(_, row, _) => Some(CreateMessage(row.title, row.content, row.authorId))
    case AddAuthor(name, email) => Some(CreateAuthor(name, email))
    case AddIndex(_, a) => Some(CreateAuthor(a.name, a.email))
    case AddCommit(_, a) => Some(CreateAuthor(a.name, a.email))
    case ReadAuthor(id) => Some(UpdateAuthor(id, None, None))
    case EditAuthor(id, name, email) => Some(UpdateAuthor(id, name, email))
    case EditIndex(id, name, email, _) => Some(UpdateAuthor(id, name, email))
    case EditCommit(id, name, email, _) => Some(UpdateAuthor(id, name, email))
    case RemoveAuthor(id) => Some(DeleteAuthor(id))
    case RemoveCheck(id, _) => Some(DeleteAuthor(id))
    case RemoveCommit(id, _) => Some(DeleteAuthor(id))
    case _ => None
  }

  /** A stage serves what its process has asked, validated. */
  predicate AskedOk(s: State, p: Pid) {
    StageRequest(StageOf(s, p)).Some? ==>
      p in s.asked && CleanRequest(s.asked[p]) == StageRequest(StageOf(s, p))
  }

  predicate StaysOnRequest(st: Stage, st': Stage) {
    StageRequest(st').Some? ==> StageRequest(st') == StageRequest(st)
  }

  lemma AdvanceStays(s: State, p: Pid, d: Draw)
    requires CanAdvance(s, p, d)
    ensures StaysOnRequest(StageOf(s, p), StageOf(AdvanceStep(s, p, d), p))
  {
    hide GetStep, PatchStep, DropStep, PostStep, AuthorStep, StaysOnRequest;
    GetStays(s, p);
    PatchStays(s, p);
    DropStays(s, p);
    PostStays(s, p, d);
    AuthorStays(s, p, d);
    ClosingStays(s, p, d);
  }

  lemma ClosingStays(s: State, p: Pid, d: Draw)
    requires CanAdvance(s, p, d)
    ensures var st := StageOf(s, p);
            !InGet(st) && !InPatch(st) && !InDrop(st) && !InPost(st) && !InAuthors(st) ==>
              st.Closing? && StaysOnRequest(st, StageOf(Goto(s, p, Done(st.reply)), p))
  {
  }

  lemma GetStays(s: State, p: Pid)
    ensures InGet(StageOf(s, p)) ==> StaysOnRequest(StageOf(s, p), StageOf(GetStep(s, p), p))
  {
    GotoLands(p);
    hide Goto, Load;
  }

  lemma PatchStays(s: State, p: Pid)
    ensures InPatch(StageOf(s, p)) ==> StaysOnRequest(StageOf(s, p), StageOf(PatchStep(s, p), p))
  {
    hide StaysOnRequest, PatchUpdateStep, PatchReloadStep, PatchCommitStep, PatchEvictStep, PatchHealStep,
         PatchCheckStep;
    match StageOf(s, p)
    case PatchUpdate(id, edit, read) => UpdateStays(s, p, id, edit, read);
    case PatchReload(id, edit, row) => ReloadStays(s, p, id, edit, row);
    case PatchCommit(id, edit, row, out) => LaterStays(s, p);
    case PatchEvict(id, edit, out, k) => LaterStays(s, p);
    case PatchRollback(id, edit, read) => LaterStays(s, p);
    case PatchHeal(id, edit, read) => LaterStays(s, p);
    case PatchCheck(id, edit, read) => LaterStays(s, p);
    case _ =>
  }

  lemma UpdateStays(s: State, p: Pid, id: Id, edit: Edit, read: bool)
    ensures StaysOnRequest(PatchUpdate(id, edit, read), StageOf(PatchUpdateStep(s, p, id, edit, read), p))
  {
    GotoLands(p);
    hide Goto, UpdateMatches, StorableEdit;
  }

  lemma ReloadStays(s: State, p: Pid, id: Id, edit: Edit, row: Message)
    ensures StaysOnRequest(PatchReload(id, edit, row), StageOf(PatchReloadStep(s, p, id, edit, row), p))
  {
    GotoLands(p);
    hide Goto, Load;
  }

  lemma LaterStays(s: State, p: Pid)
    requires InPatch(StageOf(s, p)) && !StageOf(s, p).PatchUpdate? && !StageOf(s, p).PatchReload?
    ensures StaysOnRequest(StageOf(s, p), StageOf(PatchStep(s, p), p))
  {
    GotoLands(p);
    hide Goto, Extended, Evicted, PatchUpdateStep, PatchReloadStep;
  }

  lemma DropStays(s: State, p: Pid)
    ensures InDrop(StageOf(s, p)) ==> StaysOnRequest(StageOf(s, p), StageOf(DropStep(s, p), p))
  {
    GotoLands(p);
    hide Goto, Evicted;
  }

  lemma PostStays(s: State, p: Pid, d: Draw)
    ensures InPost(StageOf(s, p)) ==> StaysOnRequest(StageOf(s, p), StageOf(PostStep(s, p, d), p))
  {
    GotoLands(p);
    hide Goto, Extended, Storable;
  }

  lemma AuthorStays(s: State, p: Pid, d: Draw)
    ensures InAuthors(StageOf(s, p)) ==> StaysOnRequest(StageOf(s, p), StageOf(AuthorStep(s, p, d), p))
  {
    hide StaysOnRequest, AddAuthorStep, AddIndexStep, AddCommitStep, ReadAuthorStep, EditAuthorStep, EditIndexStep,
         EditCommitStep, RemoveAuthorStep, RemoveCheckStep, RemoveCommitStep;
    match StageOf(s, p)
    case AddAuthor(name, email) => AddStays(s, p, d);
    case AddIndex(id, a) => AddStays(s, p, d);
    case AddCommit(id, a) => AddStays(s, p, d);
    case ReadAuthor(id) => EditStays(s, p, d);
    case EditAuthor(id, name, email) => EditStays(s, p, d);
    case EditIndex(id, name, email, before) => EditStays(s, p, d);
    case EditCommit(id, name, email, before) => EditStays(s, p, d);
    case RemoveAuthor(id) => RemoveStays(s, p, d);
    case RemoveCheck(id, target) => RemoveStays(s, p, d);
    case RemoveCommit(id, removed) => RemoveStays(s, p, d);
    case _ =>
  }

  lemma AddStays(s: State, p: Pid, d: Draw)
    requires var st := StageOf(s, p); st.AddAuthor? || st.AddIndex? || st.AddCommit?
    ensures StaysOnRequest(StageOf(s, p), StageOf(AuthorStep(s, p, d), p))
  {
    GotoLands(p);
    hide Goto, EmailTaken, Storable, WithAuthor, ReadAuthorStep, EditAuthorStep, EditIndexStep, EditCommitStep,
         RemoveAuthorStep, RemoveCheckStep, RemoveCommitStep;
  }

  lemma EditStays(s: State, p: Pid, d: Draw)
    requires var st := StageOf(s, p); st.ReadAuthor? || st.EditAuthor? || st.EditIndex? || st.EditCommit?
    ensures StaysOnRequest(StageOf(s, p), StageOf(AuthorStep(s, p, d), p))
  {
    GotoLands(p);
    hide Goto, EmailTaken, StorableOption, Changed, WithAuthor, AddAuthorStep, AddIndexStep, AddCommitStep,
         RemoveAuthorStep, RemoveCheckStep, RemoveCommitStep;
  }

  lemma RemoveStays(s: State, p: Pid, d: Draw)
    requires var st := StageOf(s, p); st.RemoveAuthor? || st.RemoveCheck? || st.RemoveCommit?
    ensures StaysOnRequest(StageOf(s, p), StageOf(AuthorStep(s, p, d), p))
  {
    GotoLands(p);
    hide Goto, Referenced, AddAuthorStep, AddIndexStep, AddCommitStep, ReadAuthorStep, EditAuthorStep, EditIndexStep,
         EditCommitStep;
  }

  lemma StartAsks(s: State, p: Pid, r: Request)
    ensures AskedOk(StartStep(s, p, r), p)
  {
    if CleanRequest(r).Some? {
      FirstRequest(s, CleanRequest(r).value);
    }
    hide CleanRequest;
  }

  lemma FirstRequest(s: State, r: Request)
    ensures forall t: State :: StageRequest(FirstStage(t, r)) == Some(r)
  {
  }

  lemma AskedStep(s: State, a: Action, s': State)
    requires Inv(s) && Step(s, a, s') && forall p :: AskedOk(s, p)
    ensures forall p :: AskedOk(s', p)
  {
    forall p
      ensures AskedOk(s', p)
    {
      StepAsked(s, a, s');
      if p != a.p {
        OthersAsked(s, a, s', p);
      } else {
        OwnAsked(s, a, s');
      }
    }
  }

  lemma OthersAsked(s: State, a: Action, s': State, p: Pid)
    requires Inv(s) && Step(s, a, s') && p != a.p && AskedOk(s, p)
    ensures AskedOk(s', p)
  {
    hide Inv, Step, CleanRequest, StageRequest;
    StepAsked(s, a, s');
    StepOthers(s, a, s', p);
  }

  lemma OwnAsked(s: State, a: Action, s': State)
    requires Step(s, a, s') && AskedOk(s, a.p)
    ensures AskedOk(s', a.p)
  {
    StepAsked(s, a, s');
    hide CleanRequest, CanAdvance, AdvanceStep, StartStep;
    match a
    case Start(p, r) => StartAsks(s, p, r);
    case Advance(p, d) => AdvanceStays(s, p, d);
    case Fail(p) => GotoLands(p);
    case Crash(p) => GotoLands(p);
  }

  // ---- when an author was created ----------------------------------------------------------

  /** Every author row ever committed under an id has the same creation time. */
  predicate BornOnce(s: State) {
    forall a, b | a in s.seen && b in s.seen && a.id == b.id :: a.createdAt == b.createdAt
  }

  predicate IsNew(s: State, st: Stage) {
    st.AddIndex? || st.AddCommit? ==> forall a | a in s.seen :: a.id != st.id
  }

  predicate NewOk(s: State) {
    forall p | p in s.procs :: IsNew(s, s.procs[p])
  }

  /** What a step adds to the authors ever seen is under its own row lock. */
  lemma SeenStep(s: State, a: Action, s': State)
    requires Step(s, a, s')
    ensures forall x | x in s'.seen && x !in s.seen ::
              a.Advance? && (StageOf(s, a.p).AddCommit? || StageOf(s, a.p).EditCommit?) && x.id == StageOf(s, a.p).id
    ensures a.Advance? && StageOf(s, a.p).AddCommit? ==>
              s'.seen == s.seen + {AuthorView(StageOf(s, a.p).id, StageOf(s, a.p).added)}
    ensures a.Advance? && StageOf(s, a.p).EditCommit? ==>
              var st := StageOf(s, a.p);
              s'.seen == s.seen + {AuthorView(st.id, Changed(st.before, st.newName, st.newEmail))}
  {
    hide CanAdvance, CleanRequest, GetStep, PatchStep, DropStep, PostStep, AuthorStep, Changed;
    if a.Advance? {
      SeenQuiet(s, a.p, a.draw);
      SeenAuthors(s, a.p, a.draw);
    }
  }

  lemma GotoSeen(p: Pid)
    ensures forall s: State, st :: Goto(s, p, st).seen == s.seen
  {
  }

  lemma SeenQuiet(s: State, p: Pid, d: Draw)
    ensures GetStep(s, p).seen == PatchStep(s, p).seen == DropStep(s, p).seen == PostStep(s, p, d).seen == s.seen
  {
    hide GetStep, PatchStep, DropStep, PostStep;
    SeenGets(s, p);
    SeenPatches(s, p);
    SeenPosts(s, p, d);
  }

  lemma SeenGets(s: State, p: Pid)
    ensures GetStep(s, p).seen == DropStep(s, p).seen == s.seen
  {
    GotoSeen(p);
    hide Goto, Load, Evicted;
  }

  lemma SeenPatches(s: State, p: Pid)
    ensures PatchStep(s, p).seen == s.seen
  {
    GotoSeen(p);
    hide Goto, Load, UpdateMatches, StorableEdit, Extended, Evicted;
  }

  lemma SeenPosts(s: State, p: Pid, d: Draw)
    ensures PostStep(s, p, d).seen == s.seen
  {
    GotoSeen(p);
    hide Goto, Extended, Storable;
  }

  lemma SeenAuthors(s: State, p: Pid, d: Draw)
    ensures var st := StageOf(s, p);
            AuthorStep(s, p, d).seen ==
            if st.AddCommit? then s.seen + {AuthorView(st.id, st.added)}
            else if st.EditCommit? then s.seen + {AuthorView(st.id, Changed(st.before, st.newName, st.newEmail))}
            else s.seen
  {
    GotoSeen(p);
    hide Goto, EmailTaken, Referenced, Storable, StorableOption, Changed;
  }

  lemma NewStep(s: State, a: Action, s': State)
    requires Inv(s) && NewOk(s) && Step(s, a, s')
    ensures NewOk(s')
  {
    hide Inv, NewOk, Step, IsNew;
    forall p | p in s'.procs
      ensures IsNew(s', s'.procs[p])
    {
      if p == a.p {
        OwnNew(s, a, s');
      } else {
        StepOthers(s, a, s', p);
        OthersNew(s, a, s', p);
      }
    }
    AllNew(s');
  }

  lemma AllNew(s: State)
    requires forall p | p in s.procs :: IsNew(s, s.procs[p])
    ensures NewOk(s)
  {
  }

  lemma OthersNew(s: State, a: Action, s': State, p: Pid)
    requires Inv(s) && NewOk(s) && Step(s, a, s') && p in s.procs && p != a.p
    ensures IsNew(s', s.procs[p])
  {
    SeenStep(s, a, s');
    hide Step;
    assert IsNew(s, s.procs[p]);
    if a.p in s.procs {
      assert Compatible(s.procs[p], s.procs[a.p]);
      RowsApart(s.procs[p], s.procs[a.p]);
    }
    hide Inv;
  }

  lemma RowsApart(a: Stage, b: Stage)
    requires Compatible(a, b)
    ensures (a.AddIndex? || a.AddCommit?) && (b.AddCommit? || b.EditCommit?) ==> a.id != b.id
  {
    hide Changed;
    if (a.AddIndex? || a.AddCommit?) && (b.AddCommit? || b.EditCommit?) {
      assert AuthorRow(a.id) in Exclusive(a) && AuthorRow(b.id) in Exclusive(b);
    }
  }

  lemma OwnNew(s: State, a: Action, s': State)
    requires Step(s, a, s') && NewOk(s)
    ensures IsNew(s', StageOf(s', a.p))
  {
    SeenStep(s, a, s');
    ComesToAdd(s, a, s');
    assert a.p in s.procs ==> IsNew(s, s.procs[a.p]);
    hide Step;
  }

  /** How a process comes to insert an author. */
  lemma ComesToAdd(s: State, a: Action, s': State)
    requires Step(s, a, s')
    ensures var st, st' := StageOf(s, a.p), StageOf(s', a.p);
            st'.AddIndex? || st'.AddCommit? ==>
              || (st.AddIndex? && st'.id == st.id)
              || (st.AddAuthor? && st'.AddIndex? && a.Advance? && st'.id == a.draw.newId
                  && forall x | x in s.seen :: x.id != st'.id)
  {
    hide GetStep, PatchStep, DropStep, PostStep, AuthorStep, CleanRequest;
    if a.Advance? {
      AuthorsAdd(s, a.p, a.draw);
      OthersAddNothing(s, a.p, a.draw);
    } else {
      hide CanAdvance, AdvanceStep;
      StartsAdd(s, a, s');
    }
  }

  lemma StartsAdd(s: State, a: Action, s': State)
    requires Step(s, a, s') && !a.Advance?
    ensures !StageOf(s', a.p).AddIndex? && !StageOf(s', a.p).AddCommit?
  {
    hide CleanRequest;
  }

  lemma AuthorsAdd(s: State, p: Pid, d: Draw)
    requires CanAdvance(s, p, d)
    ensures var st, st' := StageOf(s, p), StageOf(AuthorStep(s, p, d), p);
            InAuthors(st) && (st'.AddIndex? || st'.AddCommit?) ==>
              || (st.AddIndex? && st'.id == st.id)
              || (st.AddAuthor? && st'.AddIndex? && st'.id == d.newId && forall x | x in s.seen :: x.id != st'.id)
  {
    GotoLands(p);
    hide Goto, EmailTaken, Referenced, Storable, StorableOption, Changed, WithAuthor, CanEdit, CanRemove, CanCheck,
         CanIndex, CanEnter;
  }

  lemma OthersAddNothing(s: State, p: Pid, d: Draw)
    ensures InGet(StageOf(s, p)) || InPatch(StageOf(s, p)) || InDrop(StageOf(s, p)) || InPost(StageOf(s, p)) ==>
              !StageOf(AdvanceStep(s, p, d), p).AddIndex? && !StageOf(AdvanceStep(s, p, d), p).AddCommit?
  {
    hide GetStep, PatchStep, DropStep, PostStep, AuthorStep, StaysOnRequest;
    GetStays(s, p);
    PatchStays(s, p);
    DropStays(s, p);
    PostStays(s, p, d);
    AddsAsAuthor(StageOf(s, p), StageOf(AdvanceStep(s, p, d), p));
  }

  lemma AddsAsAuthor(st: Stage, st': Stage)
    ensures StaysOnRequest(st, st') && (InGet(st) || InPatch(st) || InDrop(st) || InPost(st)) ==>
              !st'.AddIndex? && !st'.AddCommit?
  {
  }

  lemma BornStep(s: State, a: Action, s': State)
    requires Inv(s) && NewOk(s) && BornOnce(s) && Step(s, a, s')
    ensures BornOnce(s')
  {
    hide Inv, Step, StageOk, SeenOk, AuthorsExist;
    SeenStep(s, a, s');
    FailParts(s, a.p);
    SeenNow(s);
    assert a.p in s.procs ==> IsNew(s, s.procs[a.p]);
    if StageOf(s, a.p).EditCommit? {
      EditedIsSeen(s, a.p);
    }
  }

  lemma SeenNow(s: State)
    requires Inv(s)
    ensures SeenOk(s)
  {
    hide Sound, HistoryOk, SeenOk, CacheOk, CommitsOk, StagesOk, LocksOk, LogOk;
  }

  lemma EditedIsSeen(s: State, p: Pid)
    requires StageOf(s, p).EditCommit? && StageOk(s, p, StageOf(s, p)) && SeenOk(s)
    ensures AuthorView(StageOf(s, p).id, StageOf(s, p).before) in s.seen
    ensures var st := StageOf(s, p); Changed(st.before, st.newName, st.newEmail).createdAt == st.before.createdAt
  {
  }

  // ---- the answer of a write ---------------------------------------------------------------

  /** What the k-th committed request is answered when all of them are served one by one. */
  function SerialReply(s: State, k: nat): Reply
    requires k < |s.log|
  {
    Exec(Replay(s.log[..k]), s.log[k].request, s.log[k].draw).reply
  }

  /** The success that a stage has in hand. */
  function Due(st: Stage): Option<Reply> {
    match st
    case PatchEvict(_, _, out, _) => if out.Some? then Some(Reply(200, TheMessage(out.value))) else None
    case DropEvict(_, deleted) => if deleted.Some? then Some(Reply(204, Nothing)) else None
    case Closing(r) => if r.status < 400 then Some(r) else None
    case Done(r) => if r.status < 400 then Some(r) else None
    case _ => None
  }

  /** The committed request is the one that was asked, and what it is about to be answered is what
      the serial service answers. */
  predicate WroteOk(s: State, p: Pid) {
    p in s.wrote ==>
      && s.wrote[p] < |s.log| && p in s.asked
      && CleanRequest(s.asked[p]) == Some(s.log[s.wrote[p]].request)
      && (Due(StageOf(s, p)).Some? ==> SameAnswer(Due(StageOf(s, p)).value, SerialReply(s, s.wrote[p])))
  }

  predicate IsRead(r: Request) {
    r.GetMessage? || (r.UpdateAuthor? && r.newName.None? && r.newEmail.None?)
  }

  /** Nothing but a read succeeds without a commit. */
  predicate ReadOk(s: State, p: Pid) {
    Answered(StageOf(s, p)).Some? && Due(StageOf(s, p)).Some? && p !in s.wrote ==>
      p in s.asked && CleanRequest(s.asked[p]).Some? && IsRead(CleanRequest(s.asked[p]).value)
  }

  lemma LogKept(s: State, s': State, k: nat)
    requires LogStep(s, s') && k < |s.log|
    ensures k < |s'.log| && s'.log[k] == s.log[k] && SerialReply(s', k) == SerialReply(s, k)
  {
    hide Exec, ValidRequest;
    assert s'.log[..|s.log|] == s.log;
    assert s'.log[..k] == s.log[..k];
  }

  lemma SameProcess(s: State, s': State, p: Pid)
    requires WroteOk(s, p) && ReadOk(s, p) && LogStep(s, s')
    requires StageOf(s', p) == StageOf(s, p) && SameAt(s.asked, s'.asked, p) && SameAt(s.wrote, s'.wrote, p)
    ensures WroteOk(s', p) && ReadOk(s', p)
  {
    if p in s.wrote {
      LogKept(s, s', s.wrote[p]);
    }
    hide SerialReply, CleanRequest, SameAnswer, LogStep;
  }

  lemma OthersAnswer(s: State, a: Action, s': State, p: Pid)
    requires Inv(s) && Step(s, a, s') && p != a.p && WroteOk(s, p) && ReadOk(s, p)
    ensures WroteOk(s', p) && ReadOk(s', p)
  {
    hide Inv, Step, WroteOk, ReadOk, LogStep;
    StepKeeps(s, a, s');
    StepAsked(s, a, s');
    StepOthers(s, a, s', p);
    WroteKept(s, a, s', p);
    SameProcess(s, s', p);
  }

  lemma WroteKept(s: State, a: Action, s': State, p: Pid)
    requires Inv(s) && Step(s, a, s') && p != a.p
    ensures SameAt(s.wrote, s'.wrote, p)
  {
    hide CanAdvance, CleanRequest, AdvanceStep, Commits, InFlight, Inv;
    if a.Advance? {
      if Commits(StageOf(s, a.p)) {
        CommitsWrote(s, a.p, a.draw);
      } else {
        OnlyCommitsWrite(s, a.p, a.draw);
      }
    }
  }

  // One step of the process itself.

  lemma StartAnswers(s: State, p: Pid, r: Request)
    ensures WroteOk(StartStep(s, p, r), p) && ReadOk(StartStep(s, p, r), p)
  {
    hide CleanRequest;
  }

  lemma AbandonAnswers(s: State, p: Pid, st: Stage)
    requires WroteOk(s, p) && (st.Idle? || st == Closing(ServerError))
    ensures WroteOk(Abandon(s, p, st), p) && ReadOk(Abandon(s, p, st), p)
  {
    hide CleanRequest, SerialReply, SameAnswer;
    var s' := Abandon(s, p, st);
    if p in s.wrote {
      assert SerialReply(s', s.wrote[p]) == SerialReply(s, s.wrote[p]) by { SameLogReply(s, s', s.wrote[p]); }
    }
  }

  lemma SameLogReply(s: State, s': State, k: nat)
    requires s'.log == s.log && k < |s.log|
    ensures SerialReply(s', k) == SerialReply(s, k)
  {
  }

  /** A step that commits nothing hands a success on, or drops it, or comes to one by reading. */
  predicate HandsOn(s: State, p: Pid, s': State) {
    var st, st' := StageOf(s, p), StageOf(s', p);
    && (p in s.wrote ==> Due(st').None? || Due(st') == Due(st))
    && (Answered(st').Some? && Due(st').Some? && p !in s.wrote ==>
          || (Answered(st).Some? && Due(st).Some?)
          || (StageRequest(st).Some? && IsRead(StageRequest(st).value)))
  }

  lemma GetHandsOn(s: State, p: Pid)
    requires InGet(StageOf(s, p)) && p !in s.wrote
    ensures HandsOn(s, p, GetStep(s, p))
  {
  }

  lemma PatchHandsOn(s: State, p: Pid)
    requires InPatch(StageOf(s, p)) && StageOk(s, p, StageOf(s, p)) && !Commits(StageOf(s, p))
    ensures HandsOn(s, p, PatchStep(s, p))
  {
    GotoLands(p);
    hide Goto, Load, UpdateMatches, StorableEdit, Extended, Evicted, BodyOk, Applied, OwesFor, Held, Passed, ValidEdit;
  }

  lemma DropHandsOn(s: State, p: Pid)
    requires InDrop(StageOf(s, p)) && StageOk(s, p, StageOf(s, p)) && !Commits(StageOf(s, p))
    ensures HandsOn(s, p, DropStep(s, p))
  {
    GotoLands(p);
    hide Goto, Evicted, OwesFor;
  }

  lemma PostHandsOn(s: State, p: Pid, d: Draw)
    requires InPost(StageOf(s, p)) && p !in s.wrote && !Commits(StageOf(s, p))
    ensures HandsOn(s, p, PostStep(s, p, d))
  {
    GotoLands(p);
    hide Goto, Storable;
  }

  lemma AuthorHandsOn(s: State, p: Pid, d: Draw)
    requires InAuthors(StageOf(s, p)) && p !in s.wrote && !Commits(StageOf(s, p))
    ensures HandsOn(s, p, AuthorStep(s, p, d))
  {
    GotoLands(p);
    hide Goto, EmailTaken, Referenced, Storable, StorableOption, Changed, WithAuthor;
  }

  lemma NotWrittenYet(s: State, p: Pid)
    requires StageOk(s, p, StageOf(s, p))
    ensures InGet(StageOf(s, p)) || InPost(StageOf(s, p)) || InAuthors(StageOf(s, p)) ==> p !in s.wrote
  {
    hide BodyOk, LoadOk, ValidText, ValidAddress, ValidMessage, ValidAuthor, Editing, EmailTaken, Referenced;
  }

  lemma AdvanceHandsOn(s: State, p: Pid, d: Draw)
    requires StageOk(s, p, StageOf(s, p)) && CanAdvance(s, p, d) && !Commits(StageOf(s, p))
    ensures HandsOn(s, p, AdvanceStep(s, p, d))
  {
    NotWrittenYet(s, p);
    hide GetStep, PatchStep, DropStep, PostStep, AuthorStep, HandsOn, StageOk, Commits;
    var st := StageOf(s, p);
    if InGet(st) { GetHandsOn(s, p); }
    else if InPatch(st) { PatchHandsOn(s, p); }
    else if InDrop(st) { DropHandsOn(s, p); }
    else if InPost(st) { PostHandsOn(s, p, d); }
    else if InAuthors(st) { AuthorHandsOn(s, p, d); }
    else { ClosingHandsOn(s, p, d); }
  }

  lemma ClosingHandsOn(s: State, p: Pid, d: Draw)
    requires CanAdvance(s, p, d)
    requires var st := StageOf(s, p); !InGet(st) && !InPatch(st) && !InDrop(st) && !InPost(st) && !InAuthors(st)
    ensures HandsOn(s, p, AdvanceStep(s, p, d))
  {
  }

  lemma HandedOn(s: State, p: Pid, s': State)
    requires WroteOk(s, p) && ReadOk(s, p) && AskedOk(s, p) && HandsOn(s, p, s')
    requires s'.log == s.log && s'.asked == s.asked && s'.wrote == s.wrote
    ensures WroteOk(s', p) && ReadOk(s', p)
  {
    if p in s.wrote {
      if s.wrote[p] < |s.log| { SameLogReply(s, s', s.wrote[p]); }
    }
    hide SerialReply, CleanRequest, SameAnswer;
  }

  // A commit.

  /** The commit appends what was asked, and the success in hand is what the request is answered
      when it is served there and then. */
  predicate CommitsAnswer(s: State, p: Pid, s': State) {
    && s'.wrote == s.wrote[p := |s.log|]
    && |s'.log| == |s.log| + 1 && s'.log[..|s.log|] == s.log
    && StageRequest(StageOf(s, p)) == Some(s'.log[|s.log|].request)
    && Due(StageOf(s', p)).Some?
    && SameAnswer(Due(StageOf(s', p)).value, Exec(s.db, s'.log[|s.log|].request, s'.log[|s.log|].draw).reply)
  }

  lemma SameBirth(s: State, out: AuthorOut, authorId: Id)
    requires SeenOk(s) && BornOnce(s) && out in s.seen && out.id == authorId && authorId in s.db.authors
    ensures out.createdAt == s.db.authors[authorId].createdAt
  {
    assert AuthorView(authorId, s.db.authors[authorId]) in s.seen;
  }

  lemma PatchServed(s: State, id: Id, edit: Edit, row: Message)
    requires AuthorsExist(s.db) && Held(s, id, edit, row)
    ensures row.authorId in s.db.authors
    ensures Exec(s.db, UpdateMessage(id, edit), Draw(0, 0)).reply ==
            Reply(200, TheMessage(MessageView(id, row, AuthorView(row.authorId, s.db.authors[row.authorId]))))
  {
    hide ValidEdit, StorableEdit;
  }

  lemma SameButAuthor(status: int, id: Id, row: Message, a: AuthorOut, b: AuthorOut)
    requires a.id == b.id && a.createdAt == b.createdAt
    ensures SameAnswer(Reply(status, TheMessage(MessageView(id, row, a))),
                       Reply(status, TheMessage(MessageView(id, row, b))))
  {
  }

  lemma PatchAnswers(s: State, p: Pid, id: Id, edit: Edit, row: Message, out: Option<MessageOut>)
    requires AuthorsExist(s.db) && SeenOk(s) && BornOnce(s)
    requires StageOf(s, p) == PatchCommit(id, edit, row, out) && StageOk(s, p, StageOf(s, p))
    ensures CommitsAnswer(s, p, PatchCommitStep(s, p, id, edit, row, out))
  {
    hide BornOnce, SeenOk, AuthorsExist, Exec, Held, SameAnswer, Extended;
    PatchServed(s, id, edit, row);
    SameBirth(s, out.value.author, row.authorId);
    SameButAuthor(200, id, row, out.value.author, AuthorView(row.authorId, s.db.authors[row.authorId]));
  }

  lemma PostAnswers(s: State, p: Pid, id: Id, row: Message, author: AuthorOut)
    requires SeenOk(s) && BornOnce(s)
    requires StageOf(s, p) == PostCommit(id, row, author) && StageOk(s, p, StageOf(s, p))
    ensures CommitsAnswer(s, p, PostCommitStep(s, p, id, row, author))
  {
    SameBirth(s, author, row.authorId);
    PostServed(s, p, id, row, author);
    SameButAuthor(201, id, row, author, AuthorView(row.authorId, s.db.authors[row.authorId]));
    hide StageOk, BornOnce, SeenOk, Extended, Exec, SameAnswer, CommitsAnswer, Due, StageRequest, PostCommitStep;
    PostShape(s, p, id, row, author);
    CommitsOne(s, p, PostCommitStep(s, p, id, row, author),
               LogEntry(CreateMessage(row.title, row.content, row.authorId), Draw(id, row.createdAt)),
               Reply(201, TheMessage(MessageView(id, row, author))));
  }

  /** The step logs one request and has its answer in hand. */
  predicate Shape(s: State, p: Pid, s': State, e: LogEntry, reply: Reply) {
    && s'.wrote == s.wrote[p := |s.log|] && s'.log == s.log + [e]
    && StageRequest(StageOf(s, p)) == Some(e.request) && Due(StageOf(s', p)) == Some(reply)
  }

  lemma CommitsOne(s: State, p: Pid, s': State, e: LogEntry, reply: Reply)
    requires Shape(s, p, s', e, reply) && SameAnswer(reply, Exec(s.db, e.request, e.draw).reply)
    ensures CommitsAnswer(s, p, s')
  {
    hide SameAnswer, Exec, Due, StageRequest;
  }

  lemma PostShape(s: State, p: Pid, id: Id, row: Message, author: AuthorOut)
    requires StageOf(s, p) == PostCommit(id, row, author)
    ensures Shape(s, p, PostCommitStep(s, p, id, row, author),
                  LogEntry(CreateMessage(row.title, row.content, row.authorId), Draw(id, row.createdAt)),
                  Reply(201, TheMessage(MessageView(id, row, author))))
  {
    hide Extended;
  }

  lemma EditShape(s: State, p: Pid, id: Id, name: Option<string>, email: Option<string>, before: Author)
    requires StageOf(s, p) == EditCommit(id, name, email, before)
    ensures Shape(s, p, EditCommitStep(s, p, id, name, email, before),
                  LogEntry(UpdateAuthor(id, name, email), Draw(0, 0)),
                  Reply(200, TheAuthor(AuthorView(id, Changed(before, name, email)))))
  {
    hide Changed;
  }

  lemma RemoveShape(s: State, p: Pid, id: Id, removed: Option<Author>)
    requires StageOf(s, p) == RemoveCommit(id, removed) && removed.Some?
    ensures Shape(s, p, RemoveCommitStep(s, p, id, removed),
                  LogEntry(DeleteAuthor(id), Draw(0, 0)), Reply(204, Nothing))
  {
  }

  lemma PostServed(s: State, p: Pid, id: Id, row: Message, author: AuthorOut)
    requires StageOk(s, p, PostCommit(id, row, author))
    ensures row.authorId in s.db.authors && author.id == row.authorId && author in s.seen
    ensures Exec(s.db, CreateMessage(row.title, row.content, row.authorId), Draw(id, row.createdAt)).reply ==
            Reply(201, TheMessage(MessageView(id, row, AuthorView(row.authorId, s.db.authors[row.authorId]))))
  {
    hide ValidText, Storable;
  }

  lemma DropAnswers(s: State, p: Pid, id: Id)
    requires StageOf(s, p) == DropCommit(id, true) && id in s.db.messages
    ensures CommitsAnswer(s, p, DropCommitStep(s, p, id, true))
  {
  }

  lemma AddAnswers(s: State, p: Pid, id: Id, a: Author)
    requires StageOf(s, p) == AddCommit(id, a) && StageOk(s, p, StageOf(s, p))
    ensures CommitsAnswer(s, p, AddCommitStep(s, p, id, a))
  {
    hide ValidText, ValidEmail, EmailTaken, Storable;
  }

  lemma EditAnswers(s: State, p: Pid, id: Id, name: Option<string>, email: Option<string>, before: Author)
    requires UniqueEmails(s.db.authors)
    requires StageOf(s, p) == EditCommit(id, name, email, before) && StageOk(s, p, StageOf(s, p))
    ensures CommitsAnswer(s, p, EditCommitStep(s, p, id, name, email, before))
  {
    EditServed(s, p, id, name, email, before);
    hide StageOk, UniqueEmails, Exec, EmailTaken, Changed, CommitsAnswer, Due, StageRequest, EditCommitStep;
    EditShape(s, p, id, name, email, before);
    CommitsOne(s, p, EditCommitStep(s, p, id, name, email, before), LogEntry(UpdateAuthor(id, name, email), Draw(0, 0)),
               Reply(200, TheAuthor(AuthorView(id, Changed(before, name, email)))));
  }

  lemma EditServed(s: State, p: Pid, id: Id, name: Option<string>, email: Option<string>, before: Author)
    requires UniqueEmails(s.db.authors) && StageOk(s, p, EditCommit(id, name, email, before))
    ensures Exec(s.db, UpdateAuthor(id, name, email), Draw(0, 0)).reply ==
            Reply(200, TheAuthor(AuthorView(id, Changed(before, name, email))))
  {
    if email.Some? && EmailTaken(s.db.authors - {id}, email.value) {
      OthersTaken(s.db.authors, id, email.value);
    }
    hide ValidRequest, EmailTaken, StorableOption;
  }

  lemma RemoveAnswers(s: State, p: Pid, id: Id, removed: Option<Author>)
    requires StageOf(s, p) == RemoveCommit(id, removed) && removed.Some? && StageOk(s, p, StageOf(s, p))
    ensures CommitsAnswer(s, p, RemoveCommitStep(s, p, id, removed))
  {
    RemoveServed(s, p, id, removed);
    hide StageOk, Referenced, Exec, CommitsAnswer, Due, StageRequest, RemoveCommitStep;
    RemoveShape(s, p, id, removed);
    CommitsOne(s, p, RemoveCommitStep(s, p, id, removed), LogEntry(DeleteAuthor(id), Draw(0, 0)), Reply(204, Nothing));
  }

  lemma RemoveServed(s: State, p: Pid, id: Id, removed: Option<Author>)
    requires StageOk(s, p, RemoveCommit(id, removed)) && removed.Some?
    ensures Exec(s.db, DeleteAuthor(id), Draw(0, 0)).reply == Reply(204, Nothing)
  {
    hide Referenced;
  }

  lemma AdvanceCommits(s: State, p: Pid, d: Draw)
    requires AuthorsExist(s.db) && UniqueEmails(s.db.authors) && SeenOk(s) && BornOnce(s)
    requires StageOk(s, p, StageOf(s, p)) && Commits(StageOf(s, p))
    ensures CommitsAnswer(s, p, AdvanceStep(s, p, d))
  {
    hide AuthorsExist, UniqueEmails, SeenOk, BornOnce, StageOk, CommitsAnswer, AdvanceStep, AuthorStep, PatchCommitStep,
         PostCommitStep, DropCommitStep;
    DropFound(s, p);
    CommitIs(s, p, d);
    match StageOf(s, p)
    case PatchCommit(id, edit, row, out) => PatchAnswers(s, p, id, edit, row, out);
    case PostCommit(id, row, author) => PostAnswers(s, p, id, row, author);
    case DropCommit(id, found) => DropAnswers(s, p, id);
    case _ => AuthorCommits(s, p, d);
  }

  lemma AuthorCommits(s: State, p: Pid, d: Draw)
    requires UniqueEmails(s.db.authors) && StageOk(s, p, StageOf(s, p))
    requires Commits(StageOf(s, p)) && InAuthors(StageOf(s, p))
    ensures CommitsAnswer(s, p, AuthorStep(s, p, d))
  {
    hide UniqueEmails, StageOk, CommitsAnswer, AuthorStep, AddCommitStep, EditCommitStep, RemoveCommitStep;
    AuthorCommitIs(s, p, d);
    match StageOf(s, p)
    case AddCommit(id, a) => AddAnswers(s, p, id, a);
    case EditCommit(id, name, email, before) => EditAnswers(s, p, id, name, email, before);
    case RemoveCommit(id, removed) => RemoveAnswers(s, p, id, removed);
  }

  lemma DropFound(s: State, p: Pid)
    requires StageOk(s, p, StageOf(s, p))
    ensures StageOf(s, p).DropCommit? && StageOf(s, p).found ==> StageOf(s, p).id in s.db.messages
  {
  }

  lemma CommitAnswered(s: State, p: Pid, s': State)
    requires LogOk(s) && AskedOk(s, p) && CommitsAnswer(s, p, s') && s'.asked == s.asked
    ensures WroteOk(s', p) && ReadOk(s', p)
  {
    hide Exec, CleanRequest, SameAnswer, Due;
    assert s'.log[..|s.log|] == s.log;
  }

  lemma AnswerParts(s: State, p: Pid)
    requires Inv(s)
    ensures AuthorsExist(s.db) && UniqueEmails(s.db.authors) && SeenOk(s) && LogOk(s) && StageOk(s, p, StageOf(s, p))
  {
    FailParts(s, p);
    hide HistoryOk, SeenOk, CacheOk, CommitsOk, StagesOk, LocksOk, LogOk, StageOk, AuthorsExist, UniqueEmails;
  }

  lemma OwnAnswers(s: State, a: Action, s': State)
    requires Inv(s) && BornOnce(s) && Step(s, a, s')
    requires WroteOk(s, a.p) && ReadOk(s, a.p) && AskedOk(s, a.p)
    ensures WroteOk(s', a.p) && ReadOk(s', a.p)
  {
    hide Inv, BornOnce, WroteOk, ReadOk, AskedOk, StartStep, AdvanceStep, Abandon, CanAdvance, Commits, StageOk, SeenOk,
         AuthorsExist, UniqueEmails, LogOk, HandsOn, CommitsAnswer;
    AnswerParts(s, a.p);
    StepAsked(s, a, s');
    match a
    case Start(p, r) => StartAnswers(s, p, r);
    case Fail(p) => AbandonAnswers(s, p, Closing(ServerError));
    case Crash(p) => AbandonAnswers(s, p, Idle);
    case Advance(p, d) =>
      if Commits(StageOf(s, p)) {
        AdvanceCommits(s, p, d);
        CommitAnswered(s, p, s');
      } else {
        OnlyCommitsWrite(s, p, d);
        AdvanceHandsOn(s, p, d);
        HandedOn(s, p, s');
      }
  }

  // ---- every execution ---------------------------------------------------------------------

  ghost predicate AnswersOk(s: State) {
    && BornOnce(s) && NewOk(s)
    && forall p :: AskedOk(s, p) && WroteOk(s, p) && ReadOk(s, p)
  }

  lemma AnswersStep(s: State, a: Action, s': State)
    requires Inv(s) && AnswersOk(s) && Step(s, a, s')
    ensures AnswersOk(s')
  {
    hide Inv, Step, BornOnce, NewOk, AskedOk, WroteOk, ReadOk;
    BornStep(s, a, s');
    NewStep(s, a, s');
    AskedStep(s, a, s');
    forall p
      ensures WroteOk(s', p) && ReadOk(s', p)
    {
      if p == a.p { OwnAnswers(s, a, s'); } else { OthersAnswer(s, a, s', p); }
    }
  }

  lemma AnswersAtFirst(s: State)
    requires Init(s)
    ensures AnswersOk(s)
  {
  }

  lemma {:induction false} AnswersRun(states: seq<State>, actions: seq<Action>, i: nat)
    requires IsExecution(states, actions) && i < |states|
    ensures AnswersOk(states[i])
  {
    hide Inv, AnswersOk, Step, Init;
    if i > 0 {
      AnswersRun(states, actions, i - 1);
      InvAndStep(states, actions, i - 1);
      AnswersStep(states[i - 1], actions[i - 1], states[i]);
    } else {
      AnswersAtFirst(states[0]);
    }
  }

  lemma LogGrows(s: State, a: Action, s': State)
    requires Inv(s) && Step(s, a, s')
    ensures |s.log| <= |s'.log|
  {
    hide Inv, Step, Logged;
    StepKeeps(s, a, s');
    LoggedGrows(s, s');
  }

  lemma LoggedGrows(s: State, s': State)
    ensures Logged(s, s') ==> |s.log| <= |s'.log|
  {
    hide Exec, ValidRequest, Fresh;
  }

  /** From the start of a request on, its process has asked just that, and a commit it has to its
      name comes after everything committed by then. */
  lemma {:induction false} CommitsSince(states: seq<State>, actions: seq<Action>, p: Pid, i: nat, j: nat, k: nat)
    requires Served(states, actions, p, i, j) && i < k <= j
    ensures p in states[k].asked && states[k].asked[p] == actions[i].request
    ensures p in states[k].wrote ==> states[k].wrote[p] >= |states[i].log|
    ensures |states[k].log| >= |states[i].log|
    decreases k
  {
    hide Inv, Step, Init;
    InvAndStep(states, actions, k - 1);
    var s, a, s' := states[k - 1], actions[k - 1], states[k];
    StepAsked(s, a, s');
    LogGrows(s, a, s');
    if k == i + 1 {
      StartedBy(s, a, s');
    } else {
      CommitsSince(states, actions, p, i, j, k - 1);
      if a.p == p {
        OwnCommit(s, a, s');
      } else {
        WroteKept(s, a, s', p);
      }
    }
  }

  lemma OwnCommit(s: State, a: Action, s': State)
    requires Step(s, a, s') && !a.Start?
    ensures a.p in s'.wrote ==> s'.wrote[a.p] == |s.log| || (a.p in s.wrote && s'.wrote[a.p] == s.wrote[a.p])
  {
    hide CanAdvance, AdvanceStep, Commits, InFlight;
    if a.Advance? {
      if Commits(StageOf(s, a.p)) {
        CommitsWrote(s, a.p, a.draw);
      } else {
        OnlyCommitsWrite(s, a.p, a.draw);
      }
    }
  }

  /** The request has a place in the commit order, after all that was committed before it started,
      at which the service that serves one request at a time, with no cache, gives its answer, up
      to the author's name and email in a message. */
  predicate AnsweredInOrder(s: State, r: Request, reply: Reply, from: nat) {
    exists k | from <= k < |s.log| :: s.log[k].request == r && SameAnswer(reply, SerialReply(s, k))
  }

  /** Strict serialisability of the writes, answers included: every request that is answered 200,
      201 or 204, and is not a read, has such a place. */
  lemma AnswersAreSerial(states: seq<State>, actions: seq<Action>, p: Pid, i: nat, j: nat)
    requires Served(states, actions, p, i, j) && states[j].procs[p].reply.status < 400
    ensures CleanRequest(actions[i].request).Some?
    ensures var r, reply := CleanRequest(actions[i].request).value, states[j].procs[p].reply;
            IsRead(r) || AnsweredInOrder(states[j], r, reply, |states[i].log|)
  {
    hide Inv, Step, Init, BornOnce, NewOk, AskedOk, CleanRequest, SameAnswer, SerialReply;
    AnswersRun(states, actions, j);
    CommitsSince(states, actions, p, i, j, j);
    assert WroteOk(states[j], p) && ReadOk(states[j], p);
  }
}
