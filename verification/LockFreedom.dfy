/** Writers make progress however stale the cache is.

    A set of clients run the loop of the transaction-isolation script on one live message: read
    it, then PATCH it with the version read. Anyone else may read the message, or do anything to
    the rest of the database, at the same time. Between two commits on the message there are at
    most N * (F + 1) conflicts and N * (9 F + 20) client steps, where N is the number of clients
    and F the number of readers that sat between their load and their cache write. */
module LockFreedom {
  import opened Validation
  import opened Sets
  import opened Relational
  import opened Protocol
  import opened ProtocolInvariant
  import opened ProtocolCommits
  import opened RequestTheorems
  import opened ClientLoops

  // ---- the clients -------------------------------------------------------------------------

  /** After a successful read a client submits the version it read; otherwise it reads. */
  predicate ClientStart(s: State, p: Pid, r: Request, m: Id) {
    if HasRead(s, p, m) then
      && r.UpdateMessage? && r.id == m && CleanRequest(r).Some?
      && r.edit.version == s.procs[p].reply.payload.message.version
    else r == GetMessage(m)
  }

  /** A step of the system in which the clients follow their loop, and none of them goes away or
      fails between a conflict and the eviction that follows it. */
  predicate LoopStep(s: State, a: Action, s': State, clients: set<Pid>, m: Id) {
    && FollowStep(s, a, s', clients, m)
    && (a.Start? && a.p in clients ==> ClientStart(s, a.p, a.request, m))
    && ((a.Crash? || a.Fail?) && a.p in clients ==> !Healing(StageOf(s, a.p)))
  }

  predicate Healing(st: Stage) {
    st.PatchRollback? || st.PatchHeal?
  }

  // ---- the measure -------------------------------------------------------------------------

  /** A reader that has loaded an older row and has not yet put it in the cache. */
  predicate OldFill(s: State, q: Pid, m: Id)
    requires m in s.db.messages
  {
    && q in s.procs && s.procs[q].GetFill? && s.procs[q].id == m
    && s.procs[q].body.version != Version(s, m)
  }

  function OldFills(s: State, m: Id): set<Pid>
    requires m in s.db.messages
  {
    set q | q in s.procs && OldFill(s, q, m)
  }

  predicate StaleCache(s: State, m: Id)
    requires m in s.db.messages
  {
    m in s.cache && s.cache[m].body.version != Version(s, m)
  }

  function Staleness(s: State, m: Id): nat
    requires m in s.db.messages
  {
    if StaleCache(s, m) then 1 else 0
  }

  /** The client is about to submit an older version. */
  predicate HoldsStale(s: State, p: Pid, m: Id)
    requires m in s.db.messages
  {
    var st := StageOf(s, p);
    || OldFill(s, p, m)
    || (HasRead(s, p, m) && st.reply.payload.message.version != Version(s, m))
    || (st.PatchUpdate? && st.edit.version != Version(s, m))
  }

  /** How many more conflicts a client can meet before the next commit. */
  function Conflicts(s: State, p: Pid, m: Id): nat
    requires m in s.db.messages
  {
    if HoldsStale(s, p, m) then 1 + |OldFills(s, m)|
    else if Healing(StageOf(s, p)) then |OldFills(s, m)|
    else Staleness(s, m) + |OldFills(s, m)|
  }

  /** A conflict: the guarded update of the message matches no row. */
  predicate IsConflict(s: State, a: Action, m: Id) {
    a.Advance? && Misses(s, StageOf(s, a.p), m)
  }

  predicate Misses(s: State, st: Stage, m: Id) {
    st.PatchUpdate? && st.id == m && StorableEdit(st.edit) && !UpdateMatches(s, m, st.edit)
  }

  // ---- how a step changes cache and fills --------------------------------------------------

  /** Nothing but a fill puts a copy of the message in the cache, and a fill puts its own. */
  predicate CacheMove(s: State, p: Pid, s': State, m: Id) {
    || SameAt(s.cache, s'.cache, m) || m !in s'.cache
    || (StageOf(s, p).GetFill? && StageOf(s, p).id == m && s'.cache[m].body == StageOf(s, p).body)
  }

  lemma GetCache(s: State, p: Pid, m: Id)
    ensures CacheMove(s, p, GetStep(s, p), m)
  {
    GotoTables(p);
    hide Goto, Load;
  }

  lemma PatchCache(s: State, p: Pid, m: Id)
    ensures CacheMove(s, p, PatchStep(s, p), m)
  {
    GotoTables(p);
    hide Goto, Load, UpdateMatches, StorableEdit, Extended, Evicted;
  }

  lemma DropCache(s: State, p: Pid, m: Id)
    ensures CacheMove(s, p, DropStep(s, p), m)
  {
    GotoTables(p);
    hide Goto, Evicted;
  }

  lemma RestCache(s: State, p: Pid, d: Draw)
    ensures PostStep(s, p, d).cache == s.cache && AuthorStep(s, p, d).cache == s.cache
  {
    GotoTables(p);
    hide Goto, EmailTaken, Referenced, Extended, Storable, StorableOption, Changed;
  }

  lemma StepCache(s: State, a: Action, s': State, m: Id)
    requires Step(s, a, s')
    ensures CacheMove(s, a.p, s', m)
  {
    hide GetStep, PatchStep, DropStep, PostStep, AuthorStep, CanAdvance, CleanRequest, Evicted;
    GetCache(s, a.p, m);
    PatchCache(s, a.p, m);
    DropCache(s, a.p, m);
    if a.Advance? {
      RestCache(s, a.p, a.draw);
    }
  }

  predicate NotFilling(s: State, p: Pid) {
    !StageOf(s, p).GetFill?
  }

  lemma PatchNotFilling(s: State, p: Pid)
    ensures InPatch(StageOf(s, p)) ==> NotFilling(PatchStep(s, p), p)
    ensures InDrop(StageOf(s, p)) ==> NotFilling(DropStep(s, p), p)
  {
    GotoLands(p);
    hide Goto, Load, UpdateMatches, StorableEdit, Extended, Evicted;
  }

  lemma PostNotFilling(s: State, p: Pid, d: Draw)
    ensures InPost(StageOf(s, p)) ==> NotFilling(PostStep(s, p, d), p)
    ensures InAuthors(StageOf(s, p)) ==> NotFilling(AuthorStep(s, p, d), p)
  {
    GotoLands(p);
    hide Goto, EmailTaken, Referenced, Extended, Storable, StorableOption, Changed, WithAuthor;
  }

  /** A process comes to a fill only by loading the current row. */
  lemma StepFill(s: State, a: Action, s': State, m: Id)
    requires Step(s, a, s') && m in s.db.messages
    requires a.p in s'.procs && s'.procs[a.p].GetFill? && s'.procs[a.p].id == m
    ensures s'.procs[a.p].body.version == Version(s, m)
  {
    hide GetStep, PatchStep, DropStep, PostStep, AuthorStep, CanAdvance, CleanRequest;
    if a.Advance? {
      GetComesToFill(s, a.p, m);
      PatchNotFilling(s, a.p);
      PostNotFilling(s, a.p, a.draw);
    } else {
      hide AdvanceStep;
      OthersNotFilling(s, a, s');
    }
  }

  lemma OthersNotFilling(s: State, a: Action, s': State)
    requires Step(s, a, s') && !a.Advance?
    ensures NotFilling(s', a.p)
  {
    hide CleanRequest;
  }

  lemma GetComesToFill(s: State, p: Pid, m: Id)
    requires m in s.db.messages
    ensures var st' := StageOf(GetStep(s, p), p);
            InGet(StageOf(s, p)) && st'.GetFill? && st'.id == m ==> st'.body.version == Version(s, m)
  {
    GotoLands(p);
    hide Goto;
  }

  // ---- fills and cache together never get staler -------------------------------------------

  predicate SameVersion(s: State, s': State, m: Id) {
    m in s.db.messages && m in s'.db.messages && Version(s', m) == Version(s, m)
  }

  lemma StepOldFills(s: State, a: Action, s': State, m: Id)
    requires Inv(s) && Step(s, a, s') && SameVersion(s, s', m)
    ensures OldFills(s', m) <= OldFills(s, m)
    ensures a.Advance? ==> a.p !in OldFills(s', m)
  {
    forall q | q in OldFills(s', m)
      ensures q in OldFills(s, m) && (a.Advance? ==> q != a.p)
    {
      if q == a.p {
        StepFill(s, a, s', m);
      } else {
        StepOthers(s, a, s', q);
      }
    }
  }

  /** An old fill that reaches the cache is one old fill fewer. */
  lemma StepStaleness(s: State, a: Action, s': State, m: Id)
    requires Inv(s) && Step(s, a, s') && SameVersion(s, s', m)
    ensures |OldFills(s', m)| <= |OldFills(s, m)|
    ensures Staleness(s', m) + |OldFills(s', m)| <= Staleness(s, m) + |OldFills(s, m)|
  {
    hide Inv, Step;
    StepOldFills(s, a, s', m);
    SubsetSize(OldFills(s', m), OldFills(s, m));
    StepCache(s, a, s', m);
    if StaleCache(s', m) && !StaleCache(s, m) {
      FillIsAdvance(s, a, s', m);
      assert a.p in OldFills(s, m);
    }
  }

  lemma FillIsAdvance(s: State, a: Action, s': State, m: Id)
    requires Step(s, a, s') && SameVersion(s, s', m) && StaleCache(s', m) && !StaleCache(s, m)
    ensures a.Advance?
  {
    hide AdvanceStep, CanAdvance, CleanRequest, Evicted;
  }

  // ---- one step of a client ----------------------------------------------------------------

  /** How far a client is from the end of its round. */
  function Rank(s: State, p: Pid, m: Id): nat {
    match StageOf(s, p)
    case PatchRollback(_, _, _) => 11
    case PatchHeal(_, _, _) => 10
    case PatchCheck(_, _, _) => 9
    case PatchEvict(_, _, _, _) => 9
    case Closing(_) => 9
    case GetProbe(_) => 7
    case GetLoad(_) => 6
    case GetFill(_, _, _) => 5
    case PatchUpdate(_, _, _) => 3
    case PatchReload(_, _, _) => 2
    case PatchCommit(_, _, _, _) => 1
    case _ => if HasRead(s, p, m) then 4 else 8
  }

  predicate Staler(s: State, s': State, m: Id)
    requires SameVersion(s, s', m)
  {
    && |OldFills(s', m)| <= |OldFills(s, m)|
    && Staleness(s', m) + |OldFills(s', m)| <= Staleness(s, m) + |OldFills(s, m)|
  }

  /** The client meets no conflict for free, and moves on in its round. */
  predicate Moved(s: State, s': State, p: Pid, m: Id)
    requires SameVersion(s, s', m)
  {
    && Conflicts(s', p, m) <= Conflicts(s, p, m)
    && Rank(s', p, m) < Rank(s, p, m)
  }

  lemma OwnGet(s: State, s': State, p: Pid, m: Id)
    requires InGet(StageOf(s, p)) && ClientStage(s, p, m) && StageOk(s, p, StageOf(s, p))
    requires s' == GetStep(s, p) && SameVersion(s, s', m) && Staler(s, s', m)
    requires AuthorsExist(s.db) && (m in s.cache ==> s.cache[m].body.id == m)
    ensures Moved(s, s', p, m)
  {
    hide BodyOk, LoadOk, AuthorsExist, OldFills, GetProbeStep, GetLoadStep, GetFillStep, Moved;
    match StageOf(s, p)
    case GetProbe(id) => OwnProbe(s, s', p, m);
    case GetLoad(id) => OwnLoad(s, s', p, m);
    case GetFill(id, body, t) => OwnFill(s, s', p, m, body, t);
  }

  lemma OwnLoad(s: State, s': State, p: Pid, m: Id)
    requires StageOf(s, p) == GetLoad(m) && ClientStage(s, p, m)
    requires s' == GetLoadStep(s, p, m) && SameVersion(s, s', m) && Staler(s, s', m) && AuthorsExist(s.db)
    ensures Moved(s, s', p, m)
  {
    LoadFinds(s, m);
    hide AuthorsExist, OldFills;
  }

  lemma OwnFill(s: State, s': State, p: Pid, m: Id, body: MessageOut, t: nat)
    requires StageOf(s, p) == GetFill(m, body, t) && ClientStage(s, p, m) && body.id == m
    requires s' == GetFillStep(s, p, m, body, t) && SameVersion(s, s', m) && Staler(s, s', m)
    ensures Moved(s, s', p, m)
  {
    hide OldFills;
    assert OldFill(s, p, m) <==> body.version != Version(s, m);
  }

  lemma OwnProbe(s: State, s': State, p: Pid, m: Id)
    requires StageOf(s, p) == GetProbe(m) && ClientStage(s, p, m)
    requires s' == GetProbeStep(s, p, m) && SameVersion(s, s', m) && Staler(s, s', m)
    requires m in s.cache ==> s.cache[m].body.id == m
    ensures Moved(s, s', p, m)
  {
    hide OldFills;
  }

  lemma OwnConflict(s: State, s': State, p: Pid, m: Id, edit: Edit, read: bool)
    requires StageOf(s, p) == PatchUpdate(m, edit, read) && ClientStage(s, p, m) && StorableEdit(edit)
    requires !UpdateMatches(s, m, edit) && s' == Goto(s, p, PatchRollback(m, edit, read))
    requires SameVersion(s, s', m) && Staler(s, s', m)
    ensures Conflicts(s', p, m) + 1 <= Conflicts(s, p, m)
    ensures Rank(s', p, m) == Rank(s, p, m) + 8
  {
    hide OldFills;
  }

  lemma OwnUpdate(s: State, s': State, p: Pid, m: Id, edit: Edit, read: bool)
    requires StageOf(s, p) == PatchUpdate(m, edit, read) && ClientStage(s, p, m)
    requires !Misses(s, StageOf(s, p), m) && s' == PatchUpdateStep(s, p, m, edit, read)
    requires SameVersion(s, s', m) && Staler(s, s', m)
    ensures Conflicts(s', p, m) <= Conflicts(s, p, m)
    ensures !DatabaseRaises(s, StageOf(s, p)) ==> Rank(s', p, m) < Rank(s, p, m)
  {
    hide OldFills, StorableEdit;
  }

  lemma OwnReload(s: State, s': State, p: Pid, m: Id, edit: Edit, row: Message)
    requires StageOf(s, p) == PatchReload(m, edit, row) && ClientStage(s, p, m)
    requires Held(s, m, edit, row) && AuthorsExist(s.db) && s' == PatchReloadStep(s, p, m, edit, row)
    requires SameVersion(s, s', m) && Staler(s, s', m)
    ensures Moved(s, s', p, m)
  {
    ReloadFinds(s, m, edit, row);
    hide OldFills, Load, AuthorsExist;
  }

  lemma OwnEvict(s: State, s': State, p: Pid, m: Id)
    requires StageOf(s, p).PatchEvict? && ClientStage(s, p, m) && s' == PatchStep(s, p)
    requires SameVersion(s, s', m) && Staler(s, s', m)
    ensures Moved(s, s', p, m)
  {
    hide OldFills, Evicted;
  }

  lemma OwnTail(s: State, s': State, p: Pid, m: Id)
    requires Healing(StageOf(s, p)) || StageOf(s, p).PatchCheck?
    requires ClientStage(s, p, m) && s' == PatchStep(s, p)
    requires SameVersion(s, s', m) && Staler(s, s', m)
    ensures Moved(s, s', p, m)
  {
    hide OldFills, PatchUpdateStep, PatchReloadStep, PatchCommitStep, PatchEvictStep, Moved;
    match StageOf(s, p)
    case PatchRollback(id, edit, read) => OwnRollback(s, s', p, m);
    case PatchHeal(id, edit, read) => OwnHeal(s, s', p, m);
    case PatchCheck(id, edit, read) => OwnCheck(s, s', p, m);
  }

  lemma OwnRollback(s: State, s': State, p: Pid, m: Id)
    requires StageOf(s, p).PatchRollback? && ClientStage(s, p, m)
    requires var st := StageOf(s, p); s' == Goto(s, p, PatchHeal(st.id, st.edit, st.read))
    requires SameVersion(s, s', m) && Staler(s, s', m)
    ensures Moved(s, s', p, m)
  {
    hide OldFills;
  }

  lemma OwnHeal(s: State, s': State, p: Pid, m: Id)
    requires StageOf(s, p).PatchHeal? && ClientStage(s, p, m)
    requires var st := StageOf(s, p); s' == PatchHealStep(s, p, st.id, st.edit, st.read)
    requires SameVersion(s, s', m) && Staler(s, s', m)
    ensures Moved(s, s', p, m)
  {
    hide OldFills;
  }

  lemma OwnCheck(s: State, s': State, p: Pid, m: Id)
    requires StageOf(s, p).PatchCheck? && ClientStage(s, p, m) && s' == PatchCheckStep(s, p, StageOf(s, p).id)
    requires SameVersion(s, s', m) && Staler(s, s', m)
    ensures Moved(s, s', p, m)
  {
    hide OldFills;
  }

  /** A commit on the message moves it to another version. */
  lemma CommitMoves(s: State, s': State, p: Pid, m: Id)
    requires StageOf(s, p).PatchCommit? && StageOf(s, p).id == m && s' == PatchStep(s, p)
    requires StageOk(s, p, StageOf(s, p))
    ensures !SameVersion(s, s', m)
  {
    hide ValidEdit, Extended;
  }

  lemma OwnPatch(s: State, s': State, p: Pid, m: Id)
    requires InPatch(StageOf(s, p)) && ClientStage(s, p, m) && StageOk(s, p, StageOf(s, p))
    requires s' == PatchStep(s, p) && SameVersion(s, s', m) && Staler(s, s', m) && AuthorsExist(s.db)
    ensures if Misses(s, StageOf(s, p), m)
            then Conflicts(s', p, m) + 1 <= Conflicts(s, p, m) && Rank(s', p, m) == Rank(s, p, m) + 8
            else && Conflicts(s', p, m) <= Conflicts(s, p, m)
                 && (!DatabaseRaises(s, StageOf(s, p)) ==> Rank(s', p, m) < Rank(s, p, m))
  {
    hide OldFills, Evicted, Load, ClientStage, Conflicts, Rank, BodyOk, OwesFor, Applied, AuthorsExist,
         Held, Passed, UpdateMatches, StorableEdit;
    var st := StageOf(s, p);
    StageIsOnMessage(s, p, m);
    match st
    case PatchUpdate(id, edit, read) =>
      if Misses(s, st, m) { OwnConflict(s, s', p, m, edit, read); }
      else { OwnUpdate(s, s', p, m, edit, read); }
    case PatchReload(id, edit, row) => OwnReload(s, s', p, m, edit, row);
    case PatchCommit(id, edit, row, out) => CommitMoves(s, s', p, m);
    case PatchEvict(id, edit, out, k) => OwnEvict(s, s', p, m);
    case _ => OwnTail(s, s', p, m);
  }

  lemma StageIsOnMessage(s: State, p: Pid, m: Id)
    requires InPatch(StageOf(s, p)) && ClientStage(s, p, m)
    ensures StageOf(s, p).id == m
  {
  }

  lemma OwnStart(s: State, s': State, p: Pid, r: Request, m: Id)
    requires (StageOf(s, p).Idle? || StageOf(s, p).Done?) && ClientStage(s, p, m)
    requires ClientStart(s, p, r, m) && s' == StartStep(s, p, r)
    requires SameVersion(s, s', m) && Staler(s, s', m)
    ensures Moved(s, s', p, m)
  {
    hide OldFills, Clean, CleanOptional;
  }

  lemma OwnClosing(s: State, s': State, p: Pid, r: Reply, m: Id)
    requires StageOf(s, p) == Closing(r) && r.payload.Nothing? && s' == Goto(s, p, Done(r))
    requires SameVersion(s, s', m) && Staler(s, s', m)
    ensures Moved(s, s', p, m)
  {
    hide OldFills;
  }

  lemma OwnAbandon(s: State, s': State, p: Pid, st: Stage, m: Id)
    requires p in s.procs && !Healing(StageOf(s, p)) && s' == Abandon(s, p, st)
    requires st.Idle? || st == Closing(ServerError)
    requires SameVersion(s, s', m) && Staler(s, s', m)
    ensures Conflicts(s', p, m) <= Conflicts(s, p, m)
  {
    hide OldFills, Evicted;
  }

  lemma OthersStep(s: State, s': State, p: Pid, m: Id)
    requires SameVersion(s, s', m) && Staler(s, s', m) && ClientStage(s, p, m)
    requires StageOf(s', p) == StageOf(s, p) && (p in s'.procs <==> p in s.procs)
    requires SameAt(s.asked, s'.asked, p)
    ensures Conflicts(s', p, m) <= Conflicts(s, p, m)
    ensures Rank(s', p, m) == Rank(s, p, m)
  {
    hide OldFills;
  }

  /** The measure: a round of a client takes at most nine ranks, and a conflict starts a new one. */
  function Measure(s: State, p: Pid, m: Id): nat
    requires m in s.db.messages
  {
    9 * Conflicts(s, p, m) + Rank(s, p, m)
  }

  /** The process goes away, or its call raises. */
  predicate CutShort(s: State, a: Action) {
    a.Crash? || Raises(s, a)
  }

  /** One step of the system, as one client sees it. */
  lemma ClientMeasure(s: State, a: Action, s': State, clients: set<Pid>, m: Id, c: Pid)
    requires Inv(s) && LoopStep(s, a, s', clients, m) && Looping(s, clients, m) && c in clients
    requires SameVersion(s, s', m)
    ensures Conflicts(s', c, m) + (if IsConflict(s, a, m) && a.p == c then 1 else 0) <= Conflicts(s, c, m)
    ensures !(a.p == c && CutShort(s, a)) ==>
              Measure(s', c, m) + (if a.p == c then 1 else 0) <= Measure(s, c, m)
  {
    hide Inv, Looping, ClientStage, Conflicts, Rank, Step, StageOk, AuthorsExist, Staler, IsConflict, CutShort,
         ClientStart, FollowStep, Healing;
    ClientNow(s, clients, m, c);
    StepOf(s, a, s', clients, m);
    GetsNoStaler(s, a, s', m);
    if a.p != c {
      StepOthers(s, a, s', c);
      StepAsked(s, a, s');
      OthersStep(s, s', c, m);
    } else {
      ClientParts(s, c, m);
      OwnStep(s, a, s', m);
    }
  }

  lemma ClientNow(s: State, clients: set<Pid>, m: Id, c: Pid)
    requires Looping(s, clients, m) && c in clients
    ensures ClientStage(s, c, m)
  {
    hide ClientStage, OtherStage;
  }

  lemma StepOf(s: State, a: Action, s': State, clients: set<Pid>, m: Id)
    requires LoopStep(s, a, s', clients, m)
    ensures Step(s, a, s')
    ensures a.p in clients ==>
              && (a.Start? ==> ClientStart(s, a.p, a.request, m))
              && (a.Crash? || a.Fail? ==> !Healing(StageOf(s, a.p)))
  {
    hide Step, ClientStart, Healing;
  }

  lemma GetsNoStaler(s: State, a: Action, s': State, m: Id)
    requires Inv(s) && Step(s, a, s') && SameVersion(s, s', m)
    ensures Staler(s, s', m)
  {
    hide Inv, Step;
    StepStaleness(s, a, s', m);
  }

  lemma OwnStep(s: State, a: Action, s': State, m: Id)
    requires Step(s, a, s') && SameVersion(s, s', m) && Staler(s, s', m) && ClientStage(s, a.p, m)
    requires StageOk(s, a.p, StageOf(s, a.p)) && AuthorsExist(s.db)
    requires m in s.cache ==> s.cache[m].body.id == m
    requires a.Start? ==> ClientStart(s, a.p, a.request, m)
    requires a.Crash? || a.Fail? ==> !Healing(StageOf(s, a.p))
    ensures Conflicts(s', a.p, m) + (if IsConflict(s, a, m) then 1 else 0) <= Conflicts(s, a.p, m)
    ensures !CutShort(s, a) ==> Measure(s', a.p, m) + 1 <= Measure(s, a.p, m)
  {
    hide ClientStage, Conflicts, Rank, Staler, StageOk, AuthorsExist, AdvanceStep, StartStep, Abandon, CanAdvance,
         ClientStart, DatabaseRaises, Misses;
    match a
    case Start(c, r) => OwnStart(s, s', c, r, m);
    case Crash(c) => OwnAbandon(s, s', c, Idle, m);
    case Fail(c) => OwnAbandon(s, s', c, Closing(ServerError), m);
    case Advance(c, d) => OwnAdvance(s, s', c, d, m);
  }

  lemma OwnAdvance(s: State, s': State, c: Pid, d: Draw, m: Id)
    requires CanAdvance(s, c, d) && s' == AdvanceStep(s, c, d) && ClientStage(s, c, m)
    requires StageOk(s, c, StageOf(s, c)) && AuthorsExist(s.db)
    requires m in s.cache ==> s.cache[m].body.id == m
    requires SameVersion(s, s', m) && Staler(s, s', m)
    ensures if Misses(s, StageOf(s, c), m)
            then Conflicts(s', c, m) + 1 <= Conflicts(s, c, m) && Rank(s', c, m) == Rank(s, c, m) + 8
            else && Conflicts(s', c, m) <= Conflicts(s, c, m)
                 && (!DatabaseRaises(s, StageOf(s, c)) ==> Rank(s', c, m) < Rank(s, c, m))
  {
    var st := StageOf(s, c);
    assert st.Closing? ==> st.reply.payload.Nothing?;
    assert InGet(st) || InPatch(st) || st.Closing?;
    hide ClientStage, Conflicts, Rank, Staler, StageOk, CanAdvance, GetStep, PatchStep, AuthorsExist, DatabaseRaises,
         UpdateMatches, StorableEdit;
    if InGet(st) { OwnGet(s, s', c, m); }
    else if InPatch(st) { OwnPatch(s, s', c, m); }
    else { OwnClosing(s, s', c, st.reply, m); }
  }

  // ---- runs between two commits ------------------------------------------------------------

  /** A stretch of an execution with no commit on the message. */
  predicate IsStretch(states: seq<State>, actions: seq<Action>, clients: set<Pid>, m: Id) {
    && |states| == |actions| + 1
    && Looping(states[0], clients, m)
    && forall i | 0 <= i < |actions| ::
         LoopStep(states[i], actions[i], states[i + 1], clients, m) && SameVersion(states[i], states[i + 1], m)
  }

  lemma {:induction false} StretchKeeps(
    states: seq<State>, actions: seq<Action>, clients: set<Pid>, m: Id, i: nat)
    requires IsStretch(states, actions, clients, m) && Inv(states[0]) && i < |states|
    ensures Inv(states[i]) && Looping(states[i], clients, m)
    ensures Version(states[i], m) == Version(states[0], m)
  {
    hide Inv, Looping, Step;
    if i > 0 {
      StretchKeeps(states, actions, clients, m, i - 1);
      InvStep(states[i - 1], actions[i - 1], states[i]);
      FollowKeeps(states[i - 1], actions[i - 1], states[i], clients, m);
    } else {
      LoopingHasMessage(states[0], clients, m);
    }
  }

  /** The conflicts that some processes meet from the i-th step on. */
  function ConflictsMet(states: seq<State>, actions: seq<Action>, ps: set<Pid>, m: Id, i: nat): nat
    requires |states| == |actions| + 1 && i <= |actions|
    decreases |actions| - i
  {
    if i == |actions| then 0
    else
      (if IsConflict(states[i], actions[i], m) && actions[i].p in ps then 1 else 0)
      + ConflictsMet(states, actions, ps, m, i + 1)
  }

  /** The steps that some processes take from the i-th step on. */
  function StepsTaken(actions: seq<Action>, ps: set<Pid>, i: nat): nat
    requires i <= |actions|
    decreases |actions| - i
  {
    if i == |actions| then 0
    else (if actions[i].p in ps then 1 else 0) + StepsTaken(actions, ps, i + 1)
  }

  /** None of the processes goes away, and none of their calls raises. */
  predicate Unhindered(states: seq<State>, actions: seq<Action>, ps: set<Pid>)
    requires |states| == |actions| + 1
  {
    forall i | 0 <= i < |actions| && actions[i].p in ps :: !CutShort(states[i], actions[i])
  }

  lemma {:induction false} OneClient(
    states: seq<State>, actions: seq<Action>, clients: set<Pid>, m: Id, c: Pid, i: nat)
    requires IsStretch(states, actions, clients, m) && Inv(states[0]) && c in clients && i <= |actions|
    requires m in states[i].db.messages
    ensures ConflictsMet(states, actions, {c}, m, i) <= Conflicts(states[i], c, m)
    ensures Unhindered(states, actions, clients) ==>
              StepsTaken(actions, {c}, i) <= Measure(states[i], c, m)
    decreases |actions| - i
  {
    hide Inv, Looping, LoopStep, Conflicts, Measure, IsConflict, CutShort;
    if i < |actions| {
      StretchKeeps(states, actions, clients, m, i);
      OneClient(states, actions, clients, m, c, i + 1);
      ClientMeasure(states[i], actions[i], states[i + 1], clients, m, c);
    }
  }

  lemma {:induction false} SplitCounts(
    states: seq<State>, actions: seq<Action>, ps: set<Pid>, c: Pid, m: Id, i: nat)
    requires |states| == |actions| + 1 && i <= |actions| && c in ps
    ensures ConflictsMet(states, actions, ps, m, i)
            == ConflictsMet(states, actions, {c}, m, i) + ConflictsMet(states, actions, ps - {c}, m, i)
    ensures StepsTaken(actions, ps, i) == StepsTaken(actions, {c}, i) + StepsTaken(actions, ps - {c}, i)
    decreases |actions| - i
  {
    if i < |actions| {
      hide IsConflict;
      SplitCounts(states, actions, ps, c, m, i + 1);
    }
  }

  lemma {:induction false} NobodyCounts(states: seq<State>, actions: seq<Action>, m: Id, i: nat)
    requires |states| == |actions| + 1 && i <= |actions|
    ensures ConflictsMet(states, actions, {}, m, i) == 0 && StepsTaken(actions, {}, i) == 0
    decreases |actions| - i
  {
    if i < |actions| {
      hide IsConflict;
      NobodyCounts(states, actions, m, i + 1);
    }
  }

  /** The readers of a message that sit between their load and their cache write. */
  function SlowReaders(s: State, m: Id): set<Pid> {
    set q | q in s.procs && s.procs[q].GetFill? && s.procs[q].id == m
  }

  lemma {:induction false} SomeClients(
    states: seq<State>, actions: seq<Action>, clients: set<Pid>, ps: set<Pid>, m: Id)
    requires IsStretch(states, actions, clients, m) && Inv(states[0]) && ps <= clients
    ensures ConflictsMet(states, actions, ps, m, 0) <= |ps| * (|SlowReaders(states[0], m)| + 1)
    ensures Unhindered(states, actions, clients) ==>
              StepsTaken(actions, ps, 0) <= |ps| * (9 * |SlowReaders(states[0], m)| + 20)
    decreases ps
  {
    hide Inv, Looping, LoopStep, SlowReaders, Unhindered, ConflictsMet, StepsTaken;
    if ps == {} {
      NobodyCounts(states, actions, m, 0);
    } else {
      var c :| c in ps;
      var f := |SlowReaders(states[0], m)|;
      SplitCounts(states, actions, ps, c, m, 0);
      SomeClients(states, actions, clients, ps - {c}, m);
      FirstClient(states, actions, clients, m, c);
      OneMore(|ps - {c}|, f + 1);
      OneMore(|ps - {c}|, 9 * f + 20);
    }
  }

  lemma OneMore(n: nat, x: nat)
    ensures (n + 1) * x == n * x + x
  {
  }

  lemma FirstClient(states: seq<State>, actions: seq<Action>, clients: set<Pid>, m: Id, c: Pid)
    requires IsStretch(states, actions, clients, m) && Inv(states[0]) && c in clients
    ensures ConflictsMet(states, actions, {c}, m, 0) <= |SlowReaders(states[0], m)| + 1
    ensures Unhindered(states, actions, clients) ==>
              StepsTaken(actions, {c}, 0) <= 9 * |SlowReaders(states[0], m)| + 20
  {
    hide Inv, Looping, LoopStep, Conflicts, Measure, SlowReaders, Unhindered, ConflictsMet, StepsTaken;
    LoopingHasMessage(states[0], clients, m);
    OneClient(states, actions, clients, m, c, 0);
    AtFirst(states[0], c, m);
  }

  lemma AtFirst(s: State, c: Pid, m: Id)
    requires m in s.db.messages
    ensures Conflicts(s, c, m) <= |SlowReaders(s, m)| + 1
    ensures Measure(s, c, m) <= 9 * |SlowReaders(s, m)| + 20
  {
    SubsetSize(OldFills(s, m), SlowReaders(s, m));
    hide OldFills, SlowReaders, HoldsStale, StaleCache;
  }

  /** Lock-freedom. Take any stretch of any execution, from a commit on a live message up to the
      next one, in which N clients run their loop on it. However the cache was left, the clients
      meet at most N * (F + 1) conflicts, F being the readers that sat between load and cache
      write at the start; and as long as no client goes away and no call of theirs raises, they take
      at most N * (9 F + 20) steps, so a stretch with more of their steps holds a commit. */
  lemma WritersProgress(
    before: seq<State>, past: seq<Action>, states: seq<State>, actions: seq<Action>,
    clients: set<Pid>, m: Id)
    requires IsExecution(before, past) && states != [] && states[0] == before[|before| - 1]
    requires IsStretch(states, actions, clients, m)
    ensures ConflictsMet(states, actions, clients, m, 0) <= |clients| * (|SlowReaders(states[0], m)| + 1)
    ensures Unhindered(states, actions, clients) ==>
              StepsTaken(actions, clients, 0) <= |clients| * (9 * |SlowReaders(states[0], m)| + 20)
  {
    hide Inv, Looping, LoopStep;
    ReachableIsOk(before, past, |before| - 1);
    SomeClients(states, actions, clients, clients, m);
  }
}
