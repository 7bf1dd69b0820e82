/** The transaction-isolation script: clients race to increment a counter kept in the content of
    one message, each reading content and version and submitting content + 1 with the version. */
module TransactionIsolation {
  import opened Validation
  import opened Decimals
  import opened Relational
  import opened Protocol
  import opened ProtocolInvariant
  import opened ProtocolCommits
  import opened ProtocolTheorems
  import opened ClientLoops

  // ---- counter values ----------------------------------------------------------------------

  /** A counter value is a valid content, which validation leaves as it is. */
  lemma DecimalIsClean(n: nat)
    requires n <= MAX_INT4 + 1
    ensures Clean(Decimal(n), CONTENT_MAX) == Some(Decimal(n))
  {
    DecimalValue(n);
    assert Power10(10) == 10_000_000_000;
    DecimalLength(n, 10, 10_000_000_000);
    assert forall c: char | IsDigit(c) :: !IsSpace(c);
    ValidTextIsClean(Decimal(n), CONTENT_MAX);
  }

  // ---- the clients -------------------------------------------------------------------------

  /** `String(parseInt(content, 10) + 1)` */
  function Increment(content: string): string {
    match ParseInt(content)
    case Some(n) => Decimal(n + 1)
    case None => "NaN"
  }

  predicate CounterStart(s: State, p: Pid, r: Request, m: Id) {
    if HasRead(s, p, m) then
      var read := s.procs[p].reply.payload.message;
      r == UpdateMessage(m, Edit(None, Increment(read.content), read.version))
    else r == GetMessage(m)
  }

  /** A step in which the clients follow the script; any of them may go away or fail anywhere. */
  predicate CounterStep(s: State, a: Action, s': State, clients: set<Pid>, m: Id) {
    && Step(s, a, s')
    && (a.Start? ==>
          if a.p in clients then CounterStart(s, a.p, a.request, m) else LeavesAlone(a.request, m))
  }

  /** The script's own message, just created with content "0", and nobody writing to it. */
  predicate CounterReady(s: State, clients: set<Pid>, m: Id) {
    && Inv(s) && Looping(s, clients, m)
    && m in s.history && |s.history[m]| == 1 && s.history[m][0].content == Decimal(0)
    && (forall p | p in s.procs :: !(InPatch(s.procs[p]) && s.procs[p].id == m))
  }

  /** What the script's set-up leaves: when its POST commits a message with content "0", and its
      clients have not started and nobody else writes to the new id, a run of the script begins. */
  lemma SetupIsReady(
    s: State, p: Pid, clients: set<Pid>, m: Id, row: Message, author: AuthorOut, d: Draw)
    requires Inv(s) && StageOf(s, p) == PostCommit(m, row, author) && row.content == Decimal(0)
    requires p !in clients && (forall c | c in clients :: StageOf(s, c).Idle?)
    requires forall q | q in s.procs :: OtherStage(s.procs[q], m)
    ensures CounterReady(AdvanceStep(s, p, d), clients, m)
  {
    hide Inv, AdvanceStep, Step, Decimal, ClientStage, OtherStage;
    var s' := AdvanceStep(s, p, d);
    PostIsFresh(s, p);
    PostCommitted(s, p, m, row, author, d);
    PostSteps(s, p, d);
    InvStep(s, Advance(p, d), s');
    forall q | q in s'.procs
      ensures OtherStage(s'.procs[q], m) && !(InPatch(s'.procs[q]) && s'.procs[q].id == m)
    {
      StillOther(s, p, s', q, m, d);
    }
    forall c | c in clients
      ensures ClientStage(s', c, m)
    {
      StillIdle(s, p, s', c, m, d);
    }
  }

  lemma StillOther(s: State, p: Pid, s': State, q: Pid, m: Id, d: Draw)
    requires Inv(s) && Step(s, Advance(p, d), s') && StageOf(s', p).Closing? && q in s'.procs
    requires q in s.procs ==> OtherStage(s.procs[q], m)
    ensures OtherStage(s'.procs[q], m) && !(InPatch(s'.procs[q]) && s'.procs[q].id == m)
  {
    hide Inv, Step, OtherStage, InPatch;
    if q != p {
      StepOthers(s, Advance(p, d), s', q);
    }
    NotPatching(s'.procs[q], m);
  }

  lemma StillIdle(s: State, p: Pid, s': State, c: Pid, m: Id, d: Draw)
    requires Inv(s) && Step(s, Advance(p, d), s') && c != p && StageOf(s, c).Idle?
    ensures ClientStage(s', c, m)
  {
    hide Inv, Step, ClientStage;
    StepOthers(s, Advance(p, d), s', c);
    RestingClient(s', c, m);
  }

  lemma PostIsFresh(s: State, p: Pid)
    requires Inv(s) && StageOf(s, p).PostCommit?
    ensures StageOf(s, p).id !in s.history
  {
    InvIsCore(s);
    hide Inv, Core;
    CommitParts(s, p);
  }

  lemma NotPatching(st: Stage, m: Id)
    ensures st.Closing? ==> OtherStage(st, m)
    ensures OtherStage(st, m) ==> !(InPatch(st) && st.id == m)
  {
  }

  lemma PostSteps(s: State, p: Pid, d: Draw)
    requires StageOf(s, p).PostCommit?
    ensures Step(s, Advance(p, d), AdvanceStep(s, p, d))
  {
    hide AdvanceStep;
  }

  lemma PostCommitted(s: State, p: Pid, m: Id, row: Message, author: AuthorOut, d: Draw)
    requires StageOf(s, p) == PostCommit(m, row, author) && m !in s.history
    ensures var s' := AdvanceStep(s, p, d);
            m in s'.db.messages && m in s'.history && s'.history[m] == [row] && StageOf(s', p).Closing?
  {
    assert [] + [row] == [row];
  }

  // ---- the counter invariant ---------------------------------------------------------------

  predicate CountedHistory(s: State, m: Id) {
    && m in s.history
    && forall i | 0 <= i < |s.history[m]| :: s.history[m][i].content == Decimal(i)
  }

  predicate Submits(st: Stage) {
    st.PatchUpdate? || st.PatchReload? || st.PatchCommit?
  }

  /** Every submitted content is one more than the version it is submitted for. */
  predicate CountedEdit(st: Stage, m: Id) {
    Submits(st) && st.id == m ==>
      st.edit.version >= 0 && st.edit.content == Decimal(st.edit.version + 1)
  }

  predicate Counted(s: State, clients: set<Pid>, m: Id) {
    && Looping(s, clients, m)
    && CountedHistory(s, m)
    && (forall p | p in s.procs :: CountedEdit(s.procs[p], m))
  }

  lemma LoopingCounts(s: State, a: Action, s': State, clients: set<Pid>, m: Id)
    requires Inv(s) && Looping(s, clients, m) && CounterStep(s, a, s', clients, m)
    ensures Looping(s', clients, m)
  {
    hide Inv, Looping, Step, Increment;
    FollowKeeps(s, a, s', clients, m);
  }

  // ---- history and edits of the message ----------------------------------------------------

  predicate CommitsOn(s: State, a: Action, m: Id) {
    a.Advance? && StageOf(s, a.p).PatchCommit? && StageOf(s, a.p).id == m
  }

  /** The history of a message that is there grows only when a PATCH of it commits, and then by
      the row of that PATCH. */
  lemma HistoryMove(s: State, a: Action, s': State, m: Id)
    requires Core(s) && Step(s, a, s') && m in s.history
    ensures m in s'.history
    ensures s'.history[m] ==
            if CommitsOn(s, a, m) then s.history[m] + [StageOf(s, a.p).row] else s.history[m]
  {
    if a.p in s.procs {
      CommitParts(s, a.p);
    }
    hide Core, Held, AdvanceStep, HistoryOk, Enabled, StartStep, FailStep, CrashStep, Commits;
    if !a.Advance? {
      OnlyAdvancesWrite(s, a, s');
    } else {
      if Commits(StageOf(s, a.p)) {
        AdvanceMovesHistory(s, a.p, a.draw, m);
      } else {
        OnlyCommitsWrite(s, a.p, a.draw);
      }
    }
  }

  lemma OnlyAdvancesWrite(s: State, a: Action, s': State)
    requires Step(s, a, s') && !a.Advance?
    ensures s'.history == s.history
  {
    hide CleanRequest, FirstStage, Evicted;
  }

  lemma AdvanceMovesHistory(s: State, p: Pid, d: Draw, m: Id)
    requires Commits(StageOf(s, p)) && m in s.history
    requires StageOf(s, p).PostCommit? ==> StageOf(s, p).id !in s.history
    ensures var s' := AdvanceStep(s, p, d);
            && m in s'.history
            && s'.history[m] == if StageOf(s, p).PatchCommit? && StageOf(s, p).id == m
                                then s.history[m] + [StageOf(s, p).row] else s.history[m]
  {
    CommitIs(s, p, d);
    if InAuthors(StageOf(s, p)) { AuthorCommitIs(s, p, d); }
    GotoTables(p);
    hide AdvanceStep, AuthorStep, Goto, Changed, EmailTaken;
  }

  lemma EditAdvances(s: State, p: Pid, d: Draw, m: Id)
    requires CountedEdit(StageOf(s, p), m) && CanAdvance(s, p, d)
    ensures CountedEdit(StageOf(AdvanceStep(s, p, d), p), m)
  {
    hide GetStep, PatchStep, DropStep, PostStep, AuthorStep, CanAdvance;
    assert StageOf(s, p).Closing? ==> StageOf(AdvanceStep(s, p, d), p).Done?;
    EditPatches(s, p, m);
    EditRests(s, p, m);
    EditPosts(s, p, d, m);
    EditAuthors(s, p, d, m);
    hide Decimal;
  }

  lemma EditPatches(s: State, p: Pid, m: Id)
    requires CountedEdit(StageOf(s, p), m)
    ensures InPatch(StageOf(s, p)) ==> CountedEdit(StageOf(PatchStep(s, p), p), m)
  {
    GotoLands(p);
    hide Goto, Load, UpdateMatches, StorableEdit, Extended, Evicted, Decimal;
  }

  lemma EditRests(s: State, p: Pid, m: Id)
    ensures InGet(StageOf(s, p)) ==> CountedEdit(StageOf(GetStep(s, p), p), m)
    ensures InDrop(StageOf(s, p)) ==> CountedEdit(StageOf(DropStep(s, p), p), m)
  {
    GotoLands(p);
    hide Goto, Load, Evicted, Decimal;
  }

  lemma EditPosts(s: State, p: Pid, d: Draw, m: Id)
    ensures InPost(StageOf(s, p)) ==> CountedEdit(StageOf(PostStep(s, p, d), p), m)
  {
    GotoLands(p);
    hide Goto, Extended, Decimal, Storable;
  }

  lemma EditAuthors(s: State, p: Pid, d: Draw, m: Id)
    ensures InAuthors(StageOf(s, p)) ==> CountedEdit(StageOf(AuthorStep(s, p, d), p), m)
  {
    GotoLands(p);
    hide Goto, EmailTaken, Referenced, Decimal, Storable, StorableOption, Changed, WithAuthor, CountedEdit;
    NoEdit(m);
  }

  lemma NoEdit(m: Id)
    ensures forall st :: !Submits(st) ==> CountedEdit(st, m)
  {
  }

  /** However old the copy a client has read, its content is its version. */
  lemma ReadIsCounted(s: State, body: MessageOut, m: Id)
    requires BodyOk(s, body) && body.id == m && CountedHistory(s, m)
    ensures body.content == Decimal(body.version) && Increment(body.content) == Decimal(body.version + 1)
  {
    ParseDecimal(body.version);
  }

  lemma EditStarts(s: State, p: Pid, r: Request, m: Id)
    requires HasRead(s, p, m) && CounterStart(s, p, r, m)
    requires var body := s.procs[p].reply.payload.message;
             BodyOk(s, body) && body.id == m && body.version <= MAX_INT4
    requires CountedHistory(s, m)
    ensures CountedEdit(StageOf(StartStep(s, p, r), p), m)
    ensures StageOf(StartStep(s, p, r), p).PatchUpdate?
  {
    var body := s.procs[p].reply.payload.message;
    ReadIsCounted(s, body, m);
    DecimalIsClean(body.version + 1);
    hide Increment, Decimal, Clean, BodyOk, CountedHistory;
    assert CleanRequest(r) == Some(r);
  }

  lemma OtherEditStarts(s: State, p: Pid, r: Request, m: Id)
    requires r == GetMessage(m) || LeavesAlone(r, m)
    ensures CountedEdit(StageOf(StartStep(s, p, r), p), m)
  {
    hide Clean, CleanOptional, CleanOptionalEmail, CleanEmail, Decimal;
  }

  lemma EditKept(s: State, a: Action, s': State, clients: set<Pid>, m: Id)
    requires Inv(s) && Counted(s, clients, m) && CounterStep(s, a, s', clients, m)
    requires a.p in s'.procs
    ensures CountedEdit(s'.procs[a.p], m)
  {
    assert a.p in s.procs ==> CountedEdit(s.procs[a.p], m);
    assert a.p in clients ==> ClientStage(s, a.p, m);
    hide Inv, Counted, CountedEdit, AdvanceStep, StartStep, CanAdvance, CountedHistory;
    match a
    case Advance(p, d) =>
      IdleEdit(m);
      EditAdvances(s, p, d, m);
    case Fail(p) => IdleEdit(m);
    case Crash(p) => IdleEdit(m);
    case Start(p, r) =>
      if p in clients && HasRead(s, p, m) {
        ReadParts(s, clients, p, m);
        EditStarts(s, p, r, m);
      } else {
        OtherEditStarts(s, p, r, m);
      }
  }

  lemma IdleEdit(m: Id)
    ensures CountedEdit(Idle, m) && CountedEdit(Closing(ServerError), m)
  {
  }

  lemma ReadsMessage(s: State, clients: set<Pid>, p: Pid, m: Id)
    requires Looping(s, clients, m) && p in clients && HasRead(s, p, m)
    ensures p in s.procs && s.procs[p].Done? && s.procs[p].reply.payload.TheMessage?
    ensures s.procs[p].reply.payload.message.id == m
  {
    assert ClientStage(s, p, m);
  }

  lemma ReadParts(s: State, clients: set<Pid>, p: Pid, m: Id)
    requires Inv(s) && Counted(s, clients, m) && p in clients && HasRead(s, p, m)
    ensures var body := s.procs[p].reply.payload.message;
            BodyOk(s, body) && body.id == m && body.version <= MAX_INT4
    ensures CountedHistory(s, m)
  {
    ReadsMessage(s, clients, p, m);
    hide Inv, HistoryOk, BodyOk, CountedHistory, Looping, CountedEdit;
    RepliesOk(s, p);
    VersionBound(s, s.procs[p].reply.payload.message);
  }

  lemma RepliesOk(s: State, p: Pid)
    requires Inv(s) && p in s.procs && s.procs[p].Done? && s.procs[p].reply.payload.TheMessage?
    ensures BodyOk(s, s.procs[p].reply.payload.message) && HistoryOk(s)
  {
    assert StageOk(s, p, s.procs[p]);
    hide Sound, CacheOk, CommitsOk, LocksOk, LogOk, HistoryOk, BodyOk;
  }

  lemma VersionBound(s: State, body: MessageOut)
    requires BodyOk(s, body) && HistoryOk(s)
    ensures body.version <= MAX_INT4
  {
    assert Chain(s.history[body.id]);
  }

  // ---- the counter -------------------------------------------------------------------------

  lemma CommitRow(s: State, p: Pid, m: Id)
    requires Core(s) && p in s.procs && s.procs[p].PatchCommit? && s.procs[p].id == m
    requires CountedEdit(s.procs[p], m) && m in s.history
    ensures s.procs[p].row.content == Decimal(|s.history[m]|) && |s.history[m]| > 0
  {
    CommitParts(s, p);
    hide Core, Decimal, ValidMessage, ValidEdit, StorableEdit;
    assert Chain(s.history[m]);
    assert s.db.messages[m].version == |s.history[m]| - 1;
  }

  lemma CountedHistoryStep(s: State, a: Action, s': State, clients: set<Pid>, m: Id)
    requires Core(s) && Counted(s, clients, m) && Step(s, a, s')
    ensures CountedHistory(s', m)
  {
    hide Core, Step, Decimal, Looping, CountedEdit;
    HistoryMove(s, a, s', m);
    if CommitsOn(s, a, m) {
      StageKnown(s, a.p);
      CommitRow(s, a.p, m);
    }
  }

  lemma StageKnown(s: State, p: Pid)
    requires !StageOf(s, p).Idle?
    ensures p in s.procs
  {
  }

  lemma CountedKept(s: State, a: Action, s': State, clients: set<Pid>, m: Id)
    requires Inv(s) && Counted(s, clients, m) && CounterStep(s, a, s', clients, m)
    ensures Counted(s', clients, m)
  {
    InvIsCore(s);
    hide Inv, Core, Looping, CountedHistory, CountedEdit, Step;
    LoopingCounts(s, a, s', clients, m);
    CountedHistoryStep(s, a, s', clients, m);
    forall p | p in s'.procs
      ensures CountedEdit(s'.procs[p], m)
    {
      if p == a.p {
        EditKept(s, a, s', clients, m);
      } else {
        StepOthers(s, a, s', p);
      }
    }
  }

  /** The PATCHes of the message that have committed and not yet answered. */
  function Unanswered(s: State, m: Id): set<Pid> {
    set p | p in s.procs && s.procs[p].PatchEvict? && s.procs[p].id == m
  }

  /** A PATCH of the message is answered 200. */
  predicate IsSuccess(s: State, a: Action, s': State, m: Id) {
    && a.Advance? && InPatch(StageOf(s, a.p)) && StageOf(s, a.p).id == m
    && StageOf(s', a.p).Done? && StageOf(s', a.p).reply.status == 200
  }

  /** A client goes away, or its eviction fails, between the commit and the answer of its PATCH. */
  predicate LosesAnswer(s: State, a: Action, m: Id) {
    (a.Crash? || a.Fail?) && StageOf(s, a.p).PatchEvict? && StageOf(s, a.p).id == m
  }

  predicate AtEvict(s: State, p: Pid, m: Id) {
    StageOf(s, p).PatchEvict? && StageOf(s, p).id == m
  }

  lemma PatchAnswers(s: State, p: Pid, m: Id)
    requires InPatch(StageOf(s, p)) && StageOk(s, p, StageOf(s, p))
    ensures AtEvict(PatchStep(s, p), p, m) <==> StageOf(s, p).PatchCommit? && StageOf(s, p).id == m
    ensures StageOf(PatchStep(s, p), p).Done? && StageOf(PatchStep(s, p), p).reply.status == 200 <==>
            StageOf(s, p).PatchEvict?
  {
    PatchEvictParts(s, p);
    hide StageOk, AtEvict, PatchUpdateStep, PatchReloadStep, PatchCommitStep, PatchEvictStep, PatchHealStep,
         PatchCheckStep;
    match StageOf(s, p)
    case PatchUpdate(id, edit, read) => UpdateAnswers(s, p, id, edit, read, m);
    case PatchReload(id, edit, row) => ReloadAnswers(s, p, id, edit, row, m);
    case PatchCommit(id, edit, row, out) => LaterAnswers(s, p, m);
    case PatchEvict(id, edit, out, k) => EvictAnswers(s, p, id, out, k, m);
    case PatchRollback(id, edit, read) => LaterAnswers(s, p, m);
    case PatchHeal(id, edit, read) => LaterAnswers(s, p, m);
    case PatchCheck(id, edit, read) => LaterAnswers(s, p, m);
  }

  lemma UpdateAnswers(s: State, p: Pid, id: Id, edit: Edit, read: bool, m: Id)
    ensures var s' := PatchUpdateStep(s, p, id, edit, read); !AtEvict(s', p, m) && !StageOf(s', p).Done?
  {
    GotoLands(p);
    hide Goto, UpdateMatches, StorableEdit;
  }

  lemma ReloadAnswers(s: State, p: Pid, id: Id, edit: Edit, row: Message, m: Id)
    ensures var s' := PatchReloadStep(s, p, id, edit, row); !AtEvict(s', p, m) && !StageOf(s', p).Done?
  {
    GotoLands(p);
    hide Goto, Load;
  }

  lemma EvictAnswers(s: State, p: Pid, id: Id, out: Option<MessageOut>, k: nat, m: Id)
    requires out.Some?
    ensures var s' := PatchEvictStep(s, p, id, out, k);
            !AtEvict(s', p, m) && StageOf(s', p).Done? && StageOf(s', p).reply.status == 200
  {
    GotoLands(p);
    hide Goto, Evicted;
  }

  lemma LaterAnswers(s: State, p: Pid, m: Id)
    requires var st := StageOf(s, p); st.PatchCommit? || st.PatchRollback? || st.PatchHeal? || st.PatchCheck?
    ensures AtEvict(PatchStep(s, p), p, m) <==> StageOf(s, p).PatchCommit? && StageOf(s, p).id == m
    ensures !(StageOf(PatchStep(s, p), p).Done? && StageOf(PatchStep(s, p), p).reply.status == 200)
  {
    GotoLands(p);
    hide Goto, Extended, PatchUpdateStep, PatchReloadStep, PatchEvictStep;
  }

  lemma PatchEvictParts(s: State, p: Pid)
    requires StageOk(s, p, StageOf(s, p))
    ensures StageOf(s, p).PatchEvict? ==> StageOf(s, p).out.Some?
  {
    hide BodyOk, OwesFor, Applied, Held, Passed, ValidEdit;
  }

  lemma RestAnswers(s: State, p: Pid, d: Draw, m: Id)
    ensures InGet(StageOf(s, p)) ==> !AtEvict(GetStep(s, p), p, m)
    ensures InDrop(StageOf(s, p)) ==> !AtEvict(DropStep(s, p), p, m)
    ensures InPost(StageOf(s, p)) ==> !AtEvict(PostStep(s, p, d), p, m)
  {
    hide GetStep, DropStep, PostStep, AtEvict;
    GetAnswers(s, p, m);
    DropAnswers(s, p, m);
    PostAnswers(s, p, d, m);
  }

  lemma GetAnswers(s: State, p: Pid, m: Id)
    ensures InGet(StageOf(s, p)) ==> !AtEvict(GetStep(s, p), p, m)
  {
    GotoLands(p);
    hide Goto, Load;
  }

  lemma DropAnswers(s: State, p: Pid, m: Id)
    ensures InDrop(StageOf(s, p)) ==> !AtEvict(DropStep(s, p), p, m)
  {
    GotoLands(p);
    hide Goto, Evicted;
  }

  lemma PostAnswers(s: State, p: Pid, d: Draw, m: Id)
    ensures InPost(StageOf(s, p)) ==> !AtEvict(PostStep(s, p, d), p, m)
  {
    GotoLands(p);
    hide Goto, Extended, Storable;
  }

  lemma AuthorAnswers(s: State, p: Pid, d: Draw, m: Id)
    ensures InAuthors(StageOf(s, p)) ==> !AtEvict(AuthorStep(s, p, d), p, m)
  {
    GotoLands(p);
    hide Goto, EmailTaken, Referenced, Storable, StorableOption, Changed, WithAuthor;
  }

  /** Where the acting process stands after its step. */
  lemma ActorAnswers(s: State, a: Action, s': State, m: Id)
    requires Inv(s) && Step(s, a, s')
    ensures AtEvict(s', a.p, m) <==> CommitsOn(s, a, m)
    ensures AtEvict(s, a.p, m) <==> IsSuccess(s, a, s', m) || LosesAnswer(s, a, m)
  {
    ClientParts(s, a.p, m);
    hide Inv, StageOk, AdvanceStep, StartStep, CanAdvance, Evicted;
    match a
    case Start(p, r) => StartAnswers(s, p, r, m);
    case Fail(p) =>
    case Crash(p) =>
    case Advance(p, d) => AdvanceAnswers(s, p, d, m);
  }

  lemma StartAnswers(s: State, p: Pid, r: Request, m: Id)
    ensures !AtEvict(StartStep(s, p, r), p, m)
  {
    hide CleanRequest;
  }

  lemma AdvanceAnswers(s: State, p: Pid, d: Draw, m: Id)
    requires StageOk(s, p, StageOf(s, p)) && CanAdvance(s, p, d)
    ensures var a, s' := Advance(p, d), AdvanceStep(s, p, d);
            && (AtEvict(s', p, m) <==> CommitsOn(s, a, m))
            && (AtEvict(s, p, m) <==> IsSuccess(s, a, s', m))
  {
    hide StageOk, GetStep, PatchStep, DropStep, PostStep, AuthorStep, CanAdvance;
    assert StageOf(s, p).Closing? ==> StageOf(AdvanceStep(s, p, d), p).Done?;
    if InPatch(StageOf(s, p)) {
      PatchAnswers(s, p, m);
    } else {
      RestAnswers(s, p, d, m);
      AuthorAnswers(s, p, d, m);
    }
  }

  lemma UnansweredStep(s: State, a: Action, s': State, m: Id)
    requires Inv(s) && Step(s, a, s')
    ensures |Unanswered(s', m)|
            == |Unanswered(s, m)| + (if CommitsOn(s, a, m) then 1 else 0)
               - (if IsSuccess(s, a, s', m) || LosesAnswer(s, a, m) then 1 else 0)
  {
    hide Inv, Step, IsSuccess, LosesAnswer, CommitsOn, Unanswered;
    ActorAnswers(s, a, s', m);
    OnlyActorMoves(s, a, s', m);
    SizeWith(s, m, a.p);
    SizeWith(s', m, a.p);
    OneOutcome(s, a, s', m);
  }

  lemma OnlyActorMoves(s: State, a: Action, s': State, m: Id)
    requires Inv(s) && Step(s, a, s')
    ensures Unanswered(s', m) - {a.p} == Unanswered(s, m) - {a.p}
  {
    hide Inv, Step;
    forall p | p != a.p
      ensures p in Unanswered(s', m) <==> p in Unanswered(s, m)
    {
      StepOthers(s, a, s', p);
    }
  }

  lemma SizeWith(s: State, m: Id, p: Pid)
    ensures |Unanswered(s, m)| == |Unanswered(s, m) - {p}| + if AtEvict(s, p, m) then 1 else 0
  {
    var u := Unanswered(s, m);
    assert AtEvict(s, p, m) <==> p in u;
    if p in u {
      assert u == (u - {p}) + {p};
    } else {
      assert u == u - {p};
    }
  }

  /** The PATCHes of the message answered 200, and the answers lost, in the first n steps. */
  function Successes(states: seq<State>, actions: seq<Action>, m: Id, n: nat): nat
    requires n <= |actions| < |states|
  {
    if n == 0 then 0
    else
      Successes(states, actions, m, n - 1)
      + if IsSuccess(states[n - 1], actions[n - 1], states[n], m) then 1 else 0
  }

  function LostAnswers(states: seq<State>, actions: seq<Action>, m: Id, n: nat): nat
    requires n <= |actions| < |states|
  {
    if n == 0 then 0
    else LostAnswers(states, actions, m, n - 1) + if LosesAnswer(states[n - 1], actions[n - 1], m) then 1 else 0
  }

  /** A run of the script. */
  predicate IsCounterRun(states: seq<State>, actions: seq<Action>, clients: set<Pid>, m: Id) {
    && |states| == |actions| + 1
    && CounterReady(states[0], clients, m)
    && forall i | 0 <= i < |actions| :: CounterStep(states[i], actions[i], states[i + 1], clients, m)
  }

  lemma ReadyIsCounted(s: State, clients: set<Pid>, m: Id)
    requires CounterReady(s, clients, m)
    ensures Inv(s) && Counted(s, clients, m) && Unanswered(s, m) == {}
  {
    hide Inv, Looping, Decimal;
  }

  lemma {:induction false} CounterRunKeeps(
    states: seq<State>, actions: seq<Action>, clients: set<Pid>, m: Id, n: nat)
    requires IsCounterRun(states, actions, clients, m) && n < |states|
    ensures Inv(states[n]) && Counted(states[n], clients, m)
    ensures |states[n].history[m]| - 1
            == Successes(states, actions, m, n) + LostAnswers(states, actions, m, n)
               + |Unanswered(states[n], m)|
  {
    hide CounterReady, Inv, Counted, Step, CounterStart, IsSuccess, LosesAnswer, Unanswered, CountedHistory;
    if n == 0 {
      ReadyIsCounted(states[0], clients, m);
      ReadyHistory(states[0], clients, m);
    } else {
      CounterRunKeeps(states, actions, clients, m, n - 1);
      var s, a, s' := states[n - 1], actions[n - 1], states[n];
      assert CounterStep(s, a, s', clients, m);
      InvStep(s, a, s');
      CountedKept(s, a, s', clients, m);
      UnansweredStep(s, a, s', m);
      HistoryLength(s, a, s', clients, m);
      OneOutcome(s, a, s', m);
    }
  }

  lemma ReadyHistory(s: State, clients: set<Pid>, m: Id)
    requires CounterReady(s, clients, m)
    ensures m in s.history && |s.history[m]| == 1
  {
  }

  lemma OneOutcome(s: State, a: Action, s': State, m: Id)
    ensures !(IsSuccess(s, a, s', m) && LosesAnswer(s, a, m))
  {
  }

  lemma HistoryLength(s: State, a: Action, s': State, clients: set<Pid>, m: Id)
    requires Inv(s) && Counted(s, clients, m) && Step(s, a, s')
    ensures m in s.history && m in s'.history
    ensures |s'.history[m]| == |s.history[m]| + if CommitsOn(s, a, m) then 1 else 0
  {
    InvIsCore(s);
    hide Core, Step, CountedEdit, Looping;
    HistoryMove(s, a, s', m);
  }

  /** In every state of every run of the script the committed content is the committed version, and
      the version is the number of PATCHes answered 200, plus those committed and not yet answered,
      plus those whose client went away before the answer. */
  lemma CounterEqualsVersion(
    states: seq<State>, actions: seq<Action>, clients: set<Pid>, m: Id, n: nat)
    requires IsCounterRun(states, actions, clients, m) && n < |states|
    ensures m in states[n].db.messages
    ensures var row := states[n].db.messages[m];
            && row.content == Decimal(row.version)
            && row.version == Successes(states, actions, m, n) + LostAnswers(states, actions, m, n)
                              + |Unanswered(states[n], m)|
  {
    hide IsCounterRun, Counted, Decimal;
    CounterRunKeeps(states, actions, clients, m, n);
    CurrentRow(states[n], clients, m);
  }

  lemma CurrentRow(s: State, clients: set<Pid>, m: Id)
    requires Inv(s) && Counted(s, clients, m)
    ensures m in s.db.messages && m in s.history
    ensures s.db.messages[m].version == |s.history[m]| - 1
    ensures s.db.messages[m].content == Decimal(s.db.messages[m].version)
  {
    InvIsCore(s);
    hide Inv, Core, CountedEdit, ClientStage, OtherStage, Decimal;
    CoreHistory(s);
    assert Chain(s.history[m]);
  }

  lemma CoreHistory(s: State)
    requires Core(s)
    ensures HistoryOk(s) && CacheOk(s) && StagesOk(s, s.procs.Keys)
  {
    hide Sound, HistoryOk, CacheOk, StagesOk;
  }

  /** The body is in the cache, or in the last reply of some process. */
  predicate IsCopy(s: State, body: MessageOut) {
    || (body.id in s.cache && s.cache[body.id].body == body)
    || (exists p | p in s.procs :: s.procs[p].Done? && s.procs[p].reply.payload == TheMessage(body))
  }

  /** Every copy of the message that the cache holds or a reply carries has content == version too,
      however stale it is. */
  lemma EveryCopyIsCounted(
    states: seq<State>, actions: seq<Action>, clients: set<Pid>, m: Id, n: nat, body: MessageOut)
    requires IsCounterRun(states, actions, clients, m) && n < |states|
    requires body.id == m && IsCopy(states[n], body)
    ensures body.content == Decimal(body.version)
  {
    hide IsCounterRun, Counted, Decimal, BodyOk, Inv, IsCopy;
    CounterRunKeeps(states, actions, clients, m, n);
    CopyIsOk(states[n], body);
    CountedParts(states[n], clients, m);
    ReadIsCounted(states[n], body, m);
  }

  lemma CopyIsOk(s: State, body: MessageOut)
    requires Inv(s) && IsCopy(s, body)
    ensures BodyOk(s, body)
  {
    hide Inv, BodyOk, LoadOk;
    if body.id in s.cache && s.cache[body.id].body == body {
      CacheIsOk(s);
      assert EntryOk(s, body.id, s.cache[body.id]);
    } else {
      var p :| p in s.procs && s.procs[p].Done? && s.procs[p].reply.payload == TheMessage(body);
      RepliesOk(s, p);
    }
  }

  lemma CacheIsOk(s: State)
    requires Inv(s)
    ensures CacheOk(s)
  {
    hide Sound, CacheOk, StagesOk, LogOk;
  }

  lemma CountedParts(s: State, clients: set<Pid>, m: Id)
    requires Counted(s, clients, m)
    ensures CountedHistory(s, m)
  {
    hide Looping, CountedEdit, CountedHistory;
  }

  // ---- teardown ----------------------------------------------------------------------------

  predicate IsCounterRead(read: Option<MessageOut>) {
    read.Some? ==> read.value.content == Decimal(read.value.version)
  }

  /** Two answers with nothing but failures between them, and the same content and version. */
  predicate Agreed(polls: seq<Option<MessageOut>>, j: int, k: int) {
    && 0 <= j < k < |polls| && polls[j].Some? && polls[k].Some?
    && (forall i | j < i < k :: polls[i].None?)
    && polls[j].value.version == polls[k].value.version
    && ParseInt(polls[j].value.content) == ParseInt(polls[k].value.content)
  }

  /** The answer that the polling settles on: the first to agree with the answer before it, or else
      the last there is. */
  predicate SettlesAt(polls: seq<Option<MessageOut>>, k: nat) {
    && k < |polls| && polls[k].Some?
    && (forall i, j | 0 <= i < j < k :: !Agreed(polls, i, j))
    && ((exists j | 0 <= j < k :: Agreed(polls, j, k)) || forall i | k < i < |polls| :: polls[i].None?)
  }

  /** The polling loop of the teardown over its attempts, `None` for a read that does not answer
      200, and the no-lost-updates check on what it settles on. `None` for content or version is
      NaN, which is not equal even to itself. */
  method Teardown(polls: seq<Option<MessageOut>>) returns (content: Option<nat>, version: Option<nat>, passed: bool)
    ensures (forall k | 0 <= k < |polls| :: polls[k].None?) ==> content.None? && version.None? && !passed
    ensures (exists k | 0 <= k < |polls| :: polls[k].Some?) ==>
              exists k | 0 <= k < |polls| ::
                SettlesAt(polls, k)
                && content == ParseInt(polls[k].value.content) && version == Some(polls[k].value.version)
    ensures passed <==> content.Some? && content == version
    ensures (forall k | 0 <= k < |polls| :: IsCounterRead(polls[k])) ==>
              (passed <==> exists k | 0 <= k < |polls| :: polls[k].Some?)
  {
    content, version := None, None;
    var previous: Option<(Option<nat>, nat)> := None;
    var attempt := 0;
    ghost var last: int := -1;
    while attempt < |polls|
      invariant -1 <= last < attempt <= |polls|
      invariant last < 0 ==> content.None? && version.None? && previous.None?
      invariant last >= 0 ==>
                  && polls[last].Some? && version == Some(polls[last].value.version)
                  && content == ParseInt(polls[last].value.content) && previous == Some((content, version.value))
      invariant forall k | last < k < attempt :: polls[k].None?
      invariant forall i, j | 0 <= i < j < attempt :: !Agreed(polls, i, j)
    {
      if polls[attempt].Some? {
        var body := polls[attempt].value;
        content, version := ParseInt(body.content), Some(body.version);
        var snapshot := (content, body.version);
        if previous == Some(snapshot) {
          assert Agreed(polls, last, attempt);
          last := attempt;
          break;
        }
        previous, last := Some(snapshot), attempt;
      }
      attempt := attempt + 1;
    }
    passed := content.Some? && content == version;
    if last >= 0 {
      assert SettlesAt(polls, last);
      assert polls[last].Some?;
      if IsCounterRead(polls[last]) {
        ParseDecimal(polls[last].value.version);
      }
    }
  }
}
