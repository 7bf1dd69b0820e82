/** Where the answers that change nothing have their place in time: a refusal, or a read past the
    cache, is what the service that serves one request at a time answers at some moment between the
    request and its answer; and what a refused client learns of the version it submitted. */
module RefusalTheorems {
  import opened Validation
  import opened Relational
  import opened Protocol
  import opened ProtocolInvariant
  import opened ProtocolCommits
  import opened ProtocolTheorems
  import opened RequestTheorems
  import opened AnswerTheorems

  // ---- what is decided ---------------------------------------------------------------------

  const NO_DRAW := Draw(0, 0)

  /** The answer without a change that a process is sure to give, if none of its calls raises. */
  function Decided(s: State, p: Pid): Option<Reply> {
    match StageOf(s, p)
    case GetFill(_, body, _) => Some(Reply(200, TheMessage(body)))
    case DropCommit(_, found) => if found then None else Some(Reply(404, Nothing))
    case DropEvict(_, deleted) => if deleted.None? then Some(Reply(404, Nothing)) else None
    case RemoveCommit(_, removed) => if removed.None? then Some(Reply(404, Nothing)) else None
    case Closing(r) => if r.status != 500 && p !in s.wrote then Some(r) else None
    case Done(r) => if r.status != 500 && p !in s.wrote then Some(r) else None
    case _ => None
  }

  /** What the service with no cache answers on the tables of a state. */
  function Now(s: State, r: Request): Reply {
    Exec(s.db, r, NO_DRAW).reply
  }

  predicate FromCache(s: State, p: Pid, reply: Reply) {
    var st := StageOf(s, p);
    st.GetProbe? && st.id in s.cache && reply == Reply(200, TheMessage(s.cache[st.id].body))
  }

  /** A step of a request that is no PATCH of a message decides on what the tables say now, or on
      the cached copy, or hands on what was decided before. */
  predicate DecidesNow(s: State, p: Pid, r: Request, s': State) {
    Decided(s', p).Some? ==>
      || Decided(s', p) == Decided(s, p)
      || Decided(s', p).value == Now(s, r)
      || FromCache(s, p, Decided(s', p).value)
  }

  lemma GetDecides(s: State, p: Pid, r: Request)
    requires InGet(StageOf(s, p)) && StageRequest(StageOf(s, p)) == Some(r)
    ensures DecidesNow(s, p, r, GetStep(s, p))
  {
    GotoLands(p);
    hide Goto, Load;
  }

  lemma DropDecides(s: State, p: Pid, r: Request)
    requires InDrop(StageOf(s, p)) && StageRequest(StageOf(s, p)) == Some(r)
    requires StageOk(s, p, StageOf(s, p)) && !Commits(StageOf(s, p))
    ensures DecidesNow(s, p, r, DropStep(s, p))
  {
    GotoTables(p);
    GotoLands(p);
    hide Goto, Evicted, OwesFor;
  }

  lemma PostDecides(s: State, p: Pid, d: Draw, r: Request)
    requires InPost(StageOf(s, p)) && StageRequest(StageOf(s, p)) == Some(r) && !Commits(StageOf(s, p))
    ensures DecidesNow(s, p, r, PostStep(s, p, d))
  {
    GotoLands(p);
    hide Goto, Storable;
  }

  lemma AuthorStageParts(s: State, p: Pid)
    requires StageOk(s, p, StageOf(s, p))
    ensures var st := StageOf(s, p);
            && (st.AddIndex? ==> Storable(st.added.name) && Storable(st.added.email))
            && (st.EditIndex? ==>
                  StorableOption(st.newName) && StorableOption(st.newEmail) && st.id in s.db.authors)
            && (st.RemoveCheck? ==> st.id in s.db.authors)
  {
    hide BodyOk, ValidText, ValidEmail, Storable, Held, Applied, OwesFor, LoadOk, Passed;
  }

  lemma AddDecides(s: State, p: Pid, d: Draw, r: Request)
    requires StageOf(s, p).AddAuthor?
    requires StageRequest(StageOf(s, p)) == Some(r)
    ensures DecidesNow(s, p, r, AuthorStep(s, p, d))
  {
    GotoLands(p);
    hide Goto, EmailTaken, Storable, Now;
  }

  lemma AddIndexDecides(s: State, p: Pid, d: Draw, r: Request)
    requires StageOf(s, p).AddIndex?
    requires StageRequest(StageOf(s, p)) == Some(r) && StageOk(s, p, StageOf(s, p))
    ensures DecidesNow(s, p, r, AuthorStep(s, p, d))
  {
    AuthorStageParts(s, p);
    GotoLands(p);
    hide Goto, StageOk, EmailTaken, Storable;
  }

  lemma ReadDecides(s: State, p: Pid, d: Draw, r: Request)
    requires StageOf(s, p).ReadAuthor?
    requires StageRequest(StageOf(s, p)) == Some(r)
    ensures DecidesNow(s, p, r, AuthorStep(s, p, d))
  {
    GotoLands(p);
    hide Goto;
  }

  lemma EditDecides(s: State, p: Pid, d: Draw, r: Request)
    requires StageOf(s, p).EditAuthor?
    requires StageRequest(StageOf(s, p)) == Some(r)
    ensures DecidesNow(s, p, r, AuthorStep(s, p, d))
  {
    GotoLands(p);
    hide Goto, EmailTaken, StorableOption, Changed;
  }

  lemma EditIndexDecides(s: State, p: Pid, d: Draw, r: Request)
    requires StageOf(s, p).EditIndex?
    requires StageRequest(StageOf(s, p)) == Some(r) && StageOk(s, p, StageOf(s, p))
    ensures DecidesNow(s, p, r, AuthorStep(s, p, d))
  {
    AuthorStageParts(s, p);
    GotoLands(p);
    hide Goto, StageOk, EmailTaken, StorableOption, Changed;
  }

  lemma RemoveDecides(s: State, p: Pid, d: Draw, r: Request)
    requires StageOf(s, p).RemoveAuthor? || StageOf(s, p).RemoveCheck? || StageOf(s, p).RemoveCommit?
    requires StageRequest(StageOf(s, p)) == Some(r) && StageOk(s, p, StageOf(s, p)) && !Commits(StageOf(s, p))
    ensures DecidesNow(s, p, r, AuthorStep(s, p, d))
  {
    AuthorStageParts(s, p);
    GotoTables(p);
    GotoLands(p);
    hide Goto, StageOk, Referenced;
  }

  lemma CommitDecidesNothing(s: State, p: Pid, d: Draw)
    requires Commits(StageOf(s, p))
    ensures Decided(AdvanceStep(s, p, d), p).None?
  {
    CommitsWrote(s, p, d);
    CommitLands(s, p, d);
    hide AdvanceStep;
  }

  lemma CommitLands(s: State, p: Pid, d: Draw)
    requires Commits(StageOf(s, p))
    ensures var st := StageOf(AdvanceStep(s, p, d), p);
            st.PatchEvict? || (st.DropEvict? && st.deleted.Some?) || st.Closing?
  {
    CommitIs(s, p, d);
    if InAuthors(StageOf(s, p)) { AuthorCommitIs(s, p, d); }
    GotoLands(p);
    hide Goto, Extended, WithAuthor, Changed, AdvanceStep, AuthorStep;
  }

  lemma ClosingDecides(s: State, p: Pid, d: Draw, r: Request)
    requires StageOf(s, p).Closing?
    ensures DecidesNow(s, p, r, AdvanceStep(s, p, d))
  {
    hide Now, FromCache;
  }

  lemma Decides(s: State, p: Pid, d: Draw, r: Request)
    requires StageRequest(StageOf(s, p)) == Some(r) || StageOf(s, p).Closing?
    requires StageOk(s, p, StageOf(s, p)) && !InPatch(StageOf(s, p))
    ensures DecidesNow(s, p, r, AdvanceStep(s, p, d))
  {
    var st := StageOf(s, p);
    Families(st);
    hide GetStep, DropStep, PostStep, AuthorStep, StageOk, DecidesNow, Commits, StageRequest;
    if Commits(st) {
      hide AdvanceStep;
      CommitDecidesNothing(s, p, d);
      NothingDecided(s, p, r, AdvanceStep(s, p, d));
    }
    else if st.Closing? { ClosingDecides(s, p, d, r); }
    else if InGet(st) { GetDecides(s, p, r); }
    else if InDrop(st) { DropDecides(s, p, r); }
    else if InPost(st) { PostDecides(s, p, d, r); }
    else { AuthorDecides(s, p, d, r); }
  }

  lemma Families(st: Stage)
    ensures StageRequest(st).Some? <==> InGet(st) || InPatch(st) || InDrop(st) || InPost(st) || InAuthors(st)
  {
  }

  lemma NothingDecided(s: State, p: Pid, r: Request, s': State)
    requires Decided(s', p).None?
    ensures DecidesNow(s, p, r, s')
  {
  }

  lemma AuthorDecides(s: State, p: Pid, d: Draw, r: Request)
    requires StageRequest(StageOf(s, p)) == Some(r) && StageOk(s, p, StageOf(s, p)) && !Commits(StageOf(s, p))
    requires InAuthors(StageOf(s, p))
    ensures DecidesNow(s, p, r, AuthorStep(s, p, d))
  {
    hide AuthorStep, StageOk, DecidesNow, StageRequest;
    var st := StageOf(s, p);
    if st.ReadAuthor? { ReadDecides(s, p, d, r); }
    else if st.AddAuthor? { AddDecides(s, p, d, r); }
    else if st.AddIndex? { AddIndexDecides(s, p, d, r); }
    else if st.EditAuthor? { EditDecides(s, p, d, r); }
    else if st.EditIndex? { EditIndexDecides(s, p, d, r); }
    else { RemoveDecides(s, p, d, r); }
  }

  // ---- over a request ----------------------------------------------------------------------

  /** Some time after the start of the request, while it was in flight, the service with no cache
      would have answered this. */
  predicate Placed(states: seq<State>, p: Pid, i: nat, k: nat, r: Request, reply: Reply)
    requires k < |states|
  {
    exists l | i < l < k :: InFlight(states[l], p) && Now(states[l], r) == reply
  }

  predicate Cached(states: seq<State>, p: Pid, i: nat, k: nat, reply: Reply)
    requires k < |states|
  {
    exists l | i < l < k :: FromCache(states[l], p, reply)
  }

  lemma Later(states: seq<State>, p: Pid, i: nat, k: nat, r: Request, reply: Reply)
    requires 0 < k < |states|
    ensures Placed(states, p, i, k - 1, r, reply) ==> Placed(states, p, i, k, r, reply)
    ensures Cached(states, p, i, k - 1, reply) ==> Cached(states, p, i, k, reply)
  {
    hide InFlight, FromCache, Now;
  }

  lemma StartDecides(s: State, a: Action, s': State)
    requires Step(s, a, s') && a.Start?
    ensures Decided(s', a.p) == if CleanRequest(a.request).None? then Some(Reply(400, Nothing)) else None
  {
    hide CleanRequest;
  }

  /** The stage of a request in flight serves it, or the answer is on its way. */
  lemma ServesAsked(states: seq<State>, actions: seq<Action>, p: Pid, i: nat, j: nat, k: nat, r: Request)
    requires Served(states, actions, p, i, j) && i < k <= j && CleanRequest(actions[i].request) == Some(r)
    ensures var st := StageOf(states[k], p);
            StageRequest(st) == Some(r) || st.Closing? || st.Done? || st.Idle?
  {
    hide Step, Init, BornOnce, NewOk, WroteOk, ReadOk, CleanRequest;
    AnswersRun(states, actions, k);
    CommitsSince(states, actions, p, i, j, k);
    assert AskedOk(states[k], p);
  }

  lemma SameDecision(s: State, a: Action, s': State, p: Pid)
    requires Inv(s) && Step(s, a, s') && p != a.p
    ensures Decided(s', p) == Decided(s, p)
  {
    hide Inv, Step;
    StepOthers(s, a, s', p);
    WroteKept(s, a, s', p);
  }

  lemma FailDecides(s: State, p: Pid)
    ensures Decided(FailStep(s, p), p).None?
  {
  }

  lemma OwnDecision(s: State, a: Action, s': State, r: Request)
    requires Inv(s) && Step(s, a, s') && !a.Start? && !a.Crash? && !r.UpdateMessage?
    requires var st := StageOf(s, a.p);
             StageRequest(st) == Some(r) || st.Closing? || st.Done? || st.Idle?
    ensures DecidesNow(s, a.p, r, s') && InFlight(s, a.p)
  {
    FailParts(s, a.p);
    NotDone(s, a);
    hide Inv, CanAdvance, AdvanceStep, FailStep, StageOk, DecidesNow, Decided, InFlight;
    match a
    case Advance(p, d) =>
      NoPatch(StageOf(s, p), r);
      Decides(s, p, d, r);
    case Fail(p) =>
      FailDecides(s, p);
      NothingDecided(s, p, r, s');
  }

  lemma NoPatch(st: Stage, r: Request)
    requires (StageRequest(st) == Some(r) && !r.UpdateMessage?) || st.Closing?
    ensures !InPatch(st)
  {
  }

  lemma NotDone(s: State, a: Action)
    requires Enabled(s, a) && (a.Advance? || a.Fail?)
    ensures InFlight(s, a.p)
  {
    hide CanUpdate, CanDrop, CanInsert, CanAdd, CanEnter, CanEdit, CanIndex, CanRemove, CanCheck;
  }

  /** What is decided was right at some moment, or was in the cache. */
  lemma {:induction false} DecidedSoFar(
    states: seq<State>, actions: seq<Action>, p: Pid, i: nat, j: nat, k: nat, r: Request)
    requires Served(states, actions, p, i, j) && i < k <= j
    requires CleanRequest(actions[i].request) == Some(r) && !r.UpdateMessage?
    ensures Decided(states[k], p).Some? ==>
              var reply := Decided(states[k], p).value;
              Placed(states, p, i, k, r, reply) || Cached(states, p, i, k, reply)
    decreases k
  {
    hide Inv, Step, Init, Decided, Placed, Cached, Now, InFlight, CleanRequest, FromCache;
    InvAndStep(states, actions, k - 1);
    var s, a, s' := states[k - 1], actions[k - 1], states[k];
    if k == i + 1 {
      StartDecides(s, a, s');
    } else {
      DecidedSoFar(states, actions, p, i, j, k - 1, r);
      if a.p == p {
        NotIdleYet(states, actions, p, i, j, k - 1);
        ServesAsked(states, actions, p, i, j, k - 1, r);
        OwnDecision(s, a, s', r);
      } else {
        SameDecision(s, a, s', p);
      }
      if Decided(s', p).Some? {
        Later(states, p, i, k, r, Decided(s', p).value);
        if a.p == p { DecidedHere(states, p, i, k, r); }
      }
    }
  }

  lemma DecidedHere(states: seq<State>, p: Pid, i: nat, k: nat, r: Request)
    requires i + 1 < k < |states| && InFlight(states[k - 1], p) && Decided(states[k], p).Some?
    ensures var reply := Decided(states[k], p).value;
            && (reply == Now(states[k - 1], r) ==> Placed(states, p, i, k, r, reply))
            && (FromCache(states[k - 1], p, reply) ==> Cached(states, p, i, k, reply))
  {
    hide Decided, Now, InFlight, FromCache;
  }

  // ---- a refused PATCH ---------------------------------------------------------------------

  /** The guarded update of a PATCH finds no row to change. */
  predicate FindsNothing(s: State, a: Action) {
    var st := StageOf(s, a.p);
    a.Advance? && st.PatchUpdate? && StorableEdit(st.edit) && !UpdateMatches(s, st.id, st.edit)
  }

  predicate Checks(s: State, a: Action) {
    a.Advance? && StageOf(s, a.p).PatchCheck?
  }

  predicate Looks(st: Stage) {
    st.PatchRollback? || st.PatchHeal? || st.PatchCheck?
  }

  /** What the check answers. */
  function CheckReply(s: State, id: Id): Reply {
    Reply(if id in s.db.messages then 409 else 404, Nothing)
  }

  lemma PatchLooks(s: State, p: Pid)
    requires InPatch(StageOf(s, p))
    ensures var st, st' := StageOf(s, p), StageOf(PatchStep(s, p), p);
            && !st'.PatchUpdate?
            && (Looks(st') ==>
                  if st.PatchUpdate?
                  then StorableEdit(st.edit) && !UpdateMatches(s, st.id, st.edit) && st'.read == st.read
                  else Looks(st) && st'.read == st.read)
  {
    GotoLands(p);
    hide Goto, Load, UpdateMatches, StorableEdit, Extended, Evicted;
  }

  lemma PatchDecides(s: State, p: Pid)
    requires InPatch(StageOf(s, p)) && StageOk(s, p, StageOf(s, p))
    ensures Decided(PatchStep(s, p), p).Some? ==>
              StageOf(s, p).PatchCheck? && Decided(PatchStep(s, p), p).value == CheckReply(s, StageOf(s, p).id)
  {
    PatchWrote(s, p);
    hide StageOk, Decided, PatchUpdateStep, PatchReloadStep, PatchCommitStep, PatchEvictStep, PatchHealStep,
         PatchCheckStep;
    match StageOf(s, p)
    case PatchUpdate(id, edit, read) => UpdateDecides(s, p, id, edit, read);
    case PatchReload(id, edit, row) => ReloadDecides(s, p, id, edit, row);
    case PatchCommit(id, edit, row, out) => GotoDecides(s, p);
    case PatchEvict(id, edit, out, k) => EvictDecides(s, p, id, out, k);
    case PatchRollback(id, edit, read) => GotoDecides(s, p);
    case PatchHeal(id, edit, read) => GotoDecides(s, p);
    case PatchCheck(id, edit, read) => CheckDecides(s, p, id);
  }

  lemma UpdateDecides(s: State, p: Pid, id: Id, edit: Edit, read: bool)
    ensures Decided(PatchUpdateStep(s, p, id, edit, read), p).None?
  {
    hide UpdateMatches, StorableEdit;
  }

  lemma ReloadDecides(s: State, p: Pid, id: Id, edit: Edit, row: Message)
    ensures Decided(PatchReloadStep(s, p, id, edit, row), p).None?
  {
    hide Load;
  }

  lemma EvictDecides(s: State, p: Pid, id: Id, out: Option<MessageOut>, k: nat)
    requires p in s.wrote
    ensures Decided(PatchEvictStep(s, p, id, out, k), p).None?
  {
    hide Evicted;
  }

  lemma GotoDecides(s: State, p: Pid)
    requires var st := StageOf(s, p); st.PatchCommit? || st.PatchRollback? || st.PatchHeal?
    ensures Decided(PatchStep(s, p), p).None?
  {
    GotoLands(p);
    hide Goto, Extended, PatchUpdateStep, PatchReloadStep, PatchEvictStep, PatchCheckStep;
  }

  lemma CheckDecides(s: State, p: Pid, id: Id)
    ensures Decided(PatchCheckStep(s, p, id), p).Some? ==>
              Decided(PatchCheckStep(s, p, id), p).value == CheckReply(s, id)
  {
  }

  lemma PatchWrote(s: State, p: Pid)
    requires StageOk(s, p, StageOf(s, p))
    ensures StageOf(s, p).PatchEvict? ==> p in s.wrote && StageOf(s, p).out.Some?
  {
    hide BodyOk, Applied, OwesFor, Held, Passed;
  }

  lemma PatchStarts(s: State, a: Action, s': State, id: Id, edit: Edit)
    requires Step(s, a, s') && a.Start? && CleanRequest(a.request) == Some(UpdateMessage(id, edit))
    ensures StageOf(s', a.p) == PatchUpdate(id, edit, Known(s, id, edit.version)) && Decided(s', a.p).None?
  {
    hide CleanRequest, Known;
  }

  lemma SameStage(s: State, a: Action, s': State, p: Pid)
    requires Inv(s) && Step(s, a, s') && p != a.p
    ensures StageOf(s', p) == StageOf(s, p) && Decided(s', p) == Decided(s, p)
  {
    hide Inv, Step, Decided;
    StepOthers(s, a, s', p);
    SameDecision(s, a, s', p);
  }

  /** What one step makes of a PATCH request. */
  predicate MovesOn(s: State, a: Action, s': State, id: Id) {
    var st, st' := StageOf(s, a.p), StageOf(s', a.p);
    && !st'.PatchUpdate?
    && (Looks(st') ==> (FindsNothing(s, a) || Looks(st)) && st'.read == st.read)
    && (Decided(s', a.p).Some? ==>
          || Decided(s', a.p) == Decided(s, a.p)
          || (Checks(s, a) && Decided(s', a.p).value == CheckReply(s, id)))
  }

  lemma PatchRequestMoves(s: State, a: Action, s': State, r: Request)
    requires Inv(s) && Step(s, a, s') && (a.Advance? || a.Fail?) && r.UpdateMessage?
    requires var st := StageOf(s, a.p);
             StageRequest(st) == Some(r) || st.Closing? || st.Done? || st.Idle?
    ensures MovesOn(s, a, s', r.id)
  {
    FailParts(s, a.p);
    NotDone(s, a);
    hide Inv, CanAdvance, StageOk, AdvanceStep, FailStep, MovesOn, StageRequest;
    match a
    case Advance(p, d) =>
      if StageOf(s, p).Closing? {
        ClosingMoves(s, p, d, r.id);
      } else {
        OnlyPatches(s, p, d, r);
        PatchMovesOn(s, p, d);
      }
    case Fail(p) => FailMoves(s, p, r.id);
  }

  lemma PatchMovesOn(s: State, p: Pid, d: Draw)
    requires InPatch(StageOf(s, p)) && StageOk(s, p, StageOf(s, p))
    ensures MovesOn(s, Advance(p, d), PatchStep(s, p), StageOf(s, p).id)
  {
    PatchLooks(s, p);
    PatchDecides(s, p);
    hide PatchStep, StageOk, Decided, UpdateMatches, StorableEdit, CheckReply;
  }

  lemma ClosingMoves(s: State, p: Pid, d: Draw, id: Id)
    requires StageOf(s, p).Closing?
    ensures MovesOn(s, Advance(p, d), AdvanceStep(s, p, d), id)
  {
    ClosingAnswers(s, p, d);
    hide AdvanceStep, Decided;
  }

  lemma FailMoves(s: State, p: Pid, id: Id)
    ensures MovesOn(s, Fail(p), FailStep(s, p), id)
  {
    FailDecides(s, p);
    FailLands(s, p);
    hide FailStep, Decided;
  }

  lemma FailLands(s: State, p: Pid)
    ensures StageOf(FailStep(s, p), p) == Closing(ServerError)
  {
  }

  lemma OnlyPatches(s: State, p: Pid, d: Draw, r: Request)
    requires StageRequest(StageOf(s, p)) == Some(r) && r.UpdateMessage?
    ensures InPatch(StageOf(s, p)) && StageOf(s, p).id == r.id && AdvanceStep(s, p, d) == PatchStep(s, p)
  {
    hide PatchStep;
  }

  lemma ClosingAnswers(s: State, p: Pid, d: Draw)
    requires StageOf(s, p).Closing?
    ensures StageOf(AdvanceStep(s, p, d), p).Done? && Decided(AdvanceStep(s, p, d), p) == Decided(s, p)
  {
  }

  /** Where a PATCH stands: after its update found nothing, at u, it goes on to the check, and the
      check, at c, decides. */
  lemma {:induction false} PatchSoFar(
    states: seq<State>, actions: seq<Action>, p: Pid, i: nat, j: nat, k: nat, id: Id, edit: Edit)
    returns (u: nat, c: nat)
    requires Served(states, actions, p, i, j) && i < k <= j
    requires CleanRequest(actions[i].request) == Some(UpdateMessage(id, edit))
    ensures var st := StageOf(states[k], p);
            && (st.PatchUpdate? || Looks(st) ==> (st.read <==> Known(states[i], id, edit.version)))
            && (Looks(st) ==> i < u < k && actions[u].p == p && FindsNothing(states[u], actions[u]))
            && (Decided(states[k], p).Some? ==>
                  && i < u < c < k
                  && actions[u].p == p && FindsNothing(states[u], actions[u])
                  && actions[c].p == p && Checks(states[c], actions[c])
                  && (StageOf(states[c], p).read <==> Known(states[i], id, edit.version))
                  && Decided(states[k], p).value == CheckReply(states[c], id))
    decreases k
  {
    hide Inv, Step, Init, Decided, CheckReply, CleanRequest, Known, FindsNothing, MovesOn, StageRequest;
    u, c := 0, 0;
    InvAndStep(states, actions, k - 1);
    var s, a, s' := states[k - 1], actions[k - 1], states[k];
    if k == i + 1 {
      PatchStarts(s, a, s', id, edit);
    } else {
      u, c := PatchSoFar(states, actions, p, i, j, k - 1, id, edit);
      if a.p == p {
        NotIdleYet(states, actions, p, i, j, k - 1);
        ServesAsked(states, actions, p, i, j, k - 1, UpdateMessage(id, edit));
        PatchRequestMoves(s, a, s', UpdateMessage(id, edit));
        u, c := Moved(s, a, s', id, k, u, c);
      } else {
        SameStage(s, a, s', p);
      }
    }
  }

  lemma Moved(s: State, a: Action, s': State, id: Id, k: nat, u: nat, c: nat) returns (u': nat, c': nat)
    requires k > 0 && MovesOn(s, a, s', id)
    ensures var st, st' := StageOf(s, a.p), StageOf(s', a.p);
            && !st'.PatchUpdate?
            && (Looks(st') ==>
                  && st'.read == st.read
                  && if FindsNothing(s, a) then u' == k - 1 && st.PatchUpdate? else u' == u && Looks(st))
            && (if Looks(st') then Decided(s', a.p).None? else u' == u)
            && (Decided(s', a.p).Some? ==>
                  if Decided(s', a.p) == Decided(s, a.p) then c' == c
                  else c' == k - 1 && Checks(s, a) && Decided(s', a.p).value == CheckReply(s, id))
  {
    hide CheckReply, UpdateMatches, StorableEdit;
    u' := if Looks(StageOf(s', a.p)) && FindsNothing(s, a) then k - 1 else u;
    c' := if Decided(s', a.p) == Decided(s, a.p) then c else k - 1;
  }

  // ---- between the update and the check ----------------------------------------------------

  lemma RestStep(s: State, a: Action, s': State, p: Pid)
    requires Inv(s) && Step(s, a, s') && !InFlight(s, p) && !(a.Start? && a.p == p)
    ensures !InFlight(s', p)
  {
    if a.p == p {
      if a.Advance? || a.Fail? { NotDone(s, a); }
      hide CanAdvance, AdvanceStep, FailStep;
    } else {
      hide Inv, Step;
      StepOthers(s, a, s', p);
    }
  }

  /** A process at rest stays at rest until it starts another request. */
  lemma {:induction false} RestStays(states: seq<State>, actions: seq<Action>, p: Pid, k: nat, l: nat)
    requires IsExecution(states, actions) && k <= l < |states| && NoStart(actions, p, k, l)
    requires !InFlight(states[k], p)
    ensures !InFlight(states[l], p)
    decreases l
  {
    hide Inv, Step, Init, InFlight;
    if k < l {
      RestStays(states, actions, p, k, l - 1);
      InvAndStep(states, actions, l - 1);
      RestStep(states[l - 1], actions[l - 1], states[l], p);
    }
  }

  lemma VersionStep(s: State, a: Action, s': State, id: Id)
    requires Inv(s) && Step(s, a, s') && id in s.db.messages && id in s'.db.messages
    ensures s.db.messages[id].version <= s'.db.messages[id].version
  {
    hide Inv, Step, Core, Grows, RowTracked;
    StepFrame(s, a, s');
    InvIsCore(s);
    assert RowTracked(s, s', id);
    LastVersion(s, id);
    TrackedRises(s, s', id);
  }

  lemma TrackedRises(s: State, s': State, id: Id)
    requires RowTracked(s, s', id) && id in s.db.messages && id in s'.db.messages
    requires id in s.history && s.db.messages[id].version == |s.history[id]| - 1
    ensures s.db.messages[id].version <= s'.db.messages[id].version
  {
    hide NewCommit;
  }

  lemma LastVersion(s: State, id: Id)
    requires Core(s) && id in s.db.messages
    ensures id in s.history && 0 <= s.db.messages[id].version == |s.history[id]| - 1
  {
    assert Chain(s.history[id]);
    hide ValidMessage;
  }

  lemma {:induction false} HistoryLasts(states: seq<State>, actions: seq<Action>, k: nat, l: nat, id: Id)
    requires IsExecution(states, actions) && k <= l < |states| && id in states[k].history
    ensures id in states[l].history
    decreases l
  {
    hide Inv, Step, Init, TablesFrame;
    if k < l {
      HistoryLasts(states, actions, k, l - 1, id);
      InvAndStep(states, actions, l - 1);
      StepFrame(states[l - 1], actions[l - 1], states[l]);
    }
  }

  /** A row that is there now was there ever since it first was. */
  lemma WasThere(states: seq<State>, actions: seq<Action>, k: nat, l: nat, id: Id)
    requires IsExecution(states, actions) && k <= l < |states|
    requires id in states[k].history && id in states[l].db.messages
    ensures id in states[k].db.messages
  {
    hide Step, Init;
    if id !in states[k].db.messages {
      GoneForGood(states, actions, k, l, id);
    }
  }

  lemma InHistory(states: seq<State>, actions: seq<Action>, k: nat, id: Id)
    requires IsExecution(states, actions) && k < |states| && id in states[k].db.messages
    ensures id in states[k].history && states[k].db.messages[id].version >= 0
  {
    ReachableIsOk(states, actions, k);
    InvIsCore(states[k]);
    hide Inv, Core, Step, Init;
    LastVersion(states[k], id);
  }

  /** A live row only goes up in version. */
  lemma {:induction false} VersionsRise(states: seq<State>, actions: seq<Action>, k: nat, l: nat, id: Id)
    requires IsExecution(states, actions) && k <= l < |states|
    requires id in states[k].db.messages && id in states[l].db.messages
    ensures states[k].db.messages[id].version <= states[l].db.messages[id].version
    decreases l
  {
    hide Inv, Step, Init;
    if k < l {
      InHistory(states, actions, k, id);
      HistoryLasts(states, actions, k, l - 1, id);
      WasThere(states, actions, l - 1, l, id);
      VersionsRise(states, actions, k, l - 1, id);
      InvAndStep(states, actions, l - 1);
      VersionStep(states[l - 1], actions[l - 1], states[l], id);
    }
  }

  /** A message is committed with version 0. */
  lemma BornAtZero(s: State, a: Action, s': State, id: Id)
    requires Inv(s) && Step(s, a, s') && id !in s.history && id in s'.db.messages
    ensures s'.db.messages[id].version == 0
  {
    NotYetThere(s, id);
    FailParts(s, a.p);
    hide Inv, CanAdvance, AdvanceStep, CleanRequest, StageOk;
    if a.Advance? {
      if Commits(StageOf(s, a.p)) {
        CommitBears(s, a.p, a.draw, id);
      } else {
        OnlyCommitsWrite(s, a.p, a.draw);
      }
    }
  }

  lemma NotYetThere(s: State, id: Id)
    requires Inv(s) && id !in s.history
    ensures id !in s.db.messages
  {
    hide CacheOk, CommitsOk, StagesOk, LogOk, Sound, SeenOk, LocksOk;
  }

  lemma CommitBears(s: State, p: Pid, d: Draw, id: Id)
    requires Commits(StageOf(s, p)) && StageOk(s, p, StageOf(s, p)) && id !in s.db.messages
    requires id in AdvanceStep(s, p, d).db.messages
    ensures AdvanceStep(s, p, d).db.messages[id].version == 0
  {
    CommitIs(s, p, d);
    AuthorsKeepMessages(s, p, d);
    CommitStageParts(s, p);
    GotoTables(p);
    hide AdvanceStep, AuthorStep, Goto, Extended, StageOk, Held;
  }

  lemma CommitStageParts(s: State, p: Pid)
    requires StageOk(s, p, StageOf(s, p))
    ensures var st := StageOf(s, p);
            && (st.PatchCommit? ==> st.id in s.db.messages)
            && (st.PostCommit? ==> st.row.version == 0)
  {
    hide BodyOk, Applied, OwesFor, Passed, ValidMessage, ValidEdit, StorableEdit;
  }

  /** So a message that was not there before and is now was there with version 0 in between. */
  lemma {:induction false} FirstBirth(states: seq<State>, actions: seq<Action>, u: nat, c: nat, id: Id)
    returns (l: nat)
    requires IsExecution(states, actions) && u <= c < |states|
    requires id !in states[u].history && id in states[c].db.messages
    ensures u < l <= c && id in states[l].db.messages && states[l].db.messages[id].version == 0
    decreases c
  {
    hide Inv, Step, Init;
    InHistory(states, actions, c, id);
    if id in states[c - 1].history {
      WasThere(states, actions, c - 1, c, id);
      l := FirstBirth(states, actions, u, c - 1, id);
    } else {
      InvAndStep(states, actions, c - 1);
      BornAtZero(states[c - 1], actions[c - 1], states[c], id);
      l := c;
    }
  }

  // ---- the theorems ------------------------------------------------------------------------

  /** The one way in which a conflict is out of place: the message was created after the update had
      looked for it, and at the check it had just the version that was submitted. */
  predicate CreatedMeanwhile(
    states: seq<State>, actions: seq<Action>, p: Pid, i: nat, j: nat, id: Id, edit: Edit)
    requires |states| == |actions| + 1 && j < |states|
  {
    && edit.version == 0
    && exists u, c | i < u < c < j && actions[u].p == p == actions[c].p ::
         && FindsNothing(states[u], actions[u]) && id !in states[u].history
         && Checks(states[c], actions[c]) && id in states[c].db.messages
         && states[c].db.messages[id].version == 0
  }

  lemma NowConflicts(s: State, id: Id, edit: Edit)
    requires StorableEdit(edit)
    ensures var now := Now(s, UpdateMessage(id, edit));
            && (id in s.db.messages && s.db.messages[id].version != edit.version <==> now.status == 409)
            && (now.status == 409 ==> now == Reply(409, Nothing))
            && (id !in s.db.messages ==> now == Reply(404, Nothing))
  {
    hide StorableEdit, Load;
  }

  /** The steps that refuse a PATCH: its update at u, its check at c. */
  predicate Refuses(
    states: seq<State>, actions: seq<Action>, p: Pid, i: nat, j: nat, id: Id, edit: Edit, u: nat, c: nat)
    requires |states| == |actions| + 1 && i < j < |states|
  {
    && i < u < c < j && actions[u].p == p == actions[c].p && StorableEdit(edit)
    && FindsNothing(states[u], actions[u]) && !UpdateMatches(states[u], id, edit) && InFlight(states[u], p)
    && Checks(states[c], actions[c]) && InFlight(states[c], p)
    && StageOf(states[c], p) == PatchCheck(id, edit, Known(states[i], id, edit.version))
  }

  lemma RefusedSteps(states: seq<State>, actions: seq<Action>, p: Pid, i: nat, j: nat, id: Id, edit: Edit)
    returns (u: nat, c: nat)
    requires Served(states, actions, p, i, j) && states[j].procs[p].reply.status in {404, 409}
    requires CleanRequest(actions[i].request) == Some(UpdateMessage(id, edit))
    ensures Refuses(states, actions, p, i, j, id, edit, u, c)
    ensures states[j].procs[p].reply == CheckReply(states[c], id)
  {
    hide Inv, Step, Init, CleanRequest, Known, UpdateMatches, StorableEdit, CheckReply;
    if p in states[j].wrote { NotWroteAtRefusal(states, actions, j, p); }
    u, c := PatchSoFar(states, actions, p, i, j, j, id, edit);
    ServesAsked(states, actions, p, i, j, u, UpdateMessage(id, edit));
    ServesAsked(states, actions, p, i, j, c, UpdateMessage(id, edit));
    InvAndStep(states, actions, u);
    StagesFly(states[u], p);
    StagesFly(states[c], p);
    hide FindsNothing;
    FoundNothing(states[u], actions[u], id, edit);
  }

  lemma FoundNothing(s: State, a: Action, id: Id, edit: Edit)
    requires FindsNothing(s, a) && StageRequest(StageOf(s, a.p)) == Some(UpdateMessage(id, edit))
    ensures !UpdateMatches(s, id, edit) && StorableEdit(edit)
  {
    hide UpdateMatches, StorableEdit;
  }

  lemma StagesFly(s: State, p: Pid)
    ensures StageOf(s, p).PatchUpdate? || StageOf(s, p).PatchCheck? ==> InFlight(s, p)
  {
  }

  /** A PATCH answered 404 is in place, and one answered 409 is exactly if its message was not
      created meanwhile. */
  lemma RefusedPatchInPlace(states: seq<State>, actions: seq<Action>, p: Pid, i: nat, j: nat, id: Id, edit: Edit)
    requires Served(states, actions, p, i, j) && states[j].procs[p].reply.status in {404, 409}
    requires CleanRequest(actions[i].request) == Some(UpdateMessage(id, edit))
    ensures var reply := states[j].procs[p].reply;
            Placed(states, p, i, j, UpdateMessage(id, edit), reply) <==>
            !(reply.status == 409 && CreatedMeanwhile(states, actions, p, i, j, id, edit))
  {
    hide Step, Init, CleanRequest, Known, Now, UpdateMatches, FindsNothing, StorableEdit, InFlight;
    var u, c := RefusedSteps(states, actions, p, i, j, id, edit);
    NowConflicts(states[c], id, edit);
    var reply := states[j].procs[p].reply;
    if reply.status == 409 {
      if CreatedMeanwhile(states, actions, p, i, j, id, edit) {
        OutOfPlace(states, actions, p, i, j, id, edit);
      } else {
        ConflictInPlace(states, actions, p, i, j, id, edit, u, c);
      }
    } else {
      assert Now(states[c], UpdateMessage(id, edit)) == reply;
    }
  }

  lemma ConflictInPlace(
    states: seq<State>, actions: seq<Action>, p: Pid, i: nat, j: nat, id: Id, edit: Edit, u: nat, c: nat)
    requires Served(states, actions, p, i, j) && Refuses(states, actions, p, i, j, id, edit, u, c)
    requires id in states[c].db.messages && !CreatedMeanwhile(states, actions, p, i, j, id, edit)
    ensures Placed(states, p, i, j, UpdateMessage(id, edit), Reply(409, Nothing))
  {
    hide Step, Init, Known, Now, FindsNothing, StorableEdit, InFlight;
    var l := c;
    if states[c].db.messages[id].version == edit.version {
      if id in states[u].history {
        WasThere(states, actions, u, c, id);
        l := u;
      } else {
        l := FirstBirth(states, actions, u, c, id);
        if !InFlight(states[l], p) { RestStays(states, actions, p, l, c); }
      }
    }
    NowConflicts(states[l], id, edit);
  }

  /** Created meanwhile, the message was never there with another version than the submitted one
      while the request was in flight. */
  lemma OutOfPlace(states: seq<State>, actions: seq<Action>, p: Pid, i: nat, j: nat, id: Id, edit: Edit)
    requires Served(states, actions, p, i, j) && CreatedMeanwhile(states, actions, p, i, j, id, edit)
    requires CleanRequest(actions[i].request) == Some(UpdateMessage(id, edit))
    ensures !Placed(states, p, i, j, UpdateMessage(id, edit), Reply(409, Nothing))
  {
    hide Step, Init, Known, Now, CleanRequest, InFlight;
    var u, c :| i < u < c < j && actions[u].p == p == actions[c].p
      && FindsNothing(states[u], actions[u]) && id !in states[u].history
      && Checks(states[c], actions[c]) && id in states[c].db.messages
      && states[c].db.messages[id].version == 0;
    hide Checks;
    ServesAsked(states, actions, p, i, j, u, UpdateMessage(id, edit));
    FoundNothing(states[u], actions[u], id, edit);
    hide FindsNothing, UpdateMatches, StorableEdit;
    forall l | i < l < j && InFlight(states[l], p)
      ensures Now(states[l], UpdateMessage(id, edit)) != Reply(409, Nothing)
    {
      NowConflicts(states[l], id, edit);
      if id in states[l].db.messages {
        InHistory(states, actions, l, id);
        if l <= u {
          HistoryLasts(states, actions, l, u, id);
        } else if l <= c {
          VersionsRise(states, actions, l, c, id);
        } else {
          CheckEnds(states, actions, p, i, j, c);
          RestStays(states, actions, p, c + 1, l);
        }
      }
    }
  }

  lemma CheckEnds(states: seq<State>, actions: seq<Action>, p: Pid, i: nat, j: nat, c: nat)
    requires Served(states, actions, p, i, j) && i < c < j && actions[c].p == p && Checks(states[c], actions[c])
    ensures !InFlight(states[c + 1], p)
  {
    hide Init;
    InvAndStep(states, actions, c);
    hide Inv, Step;
    CheckStepEnds(states[c], actions[c], states[c + 1]);
  }

  lemma CheckStepEnds(s: State, a: Action, s': State)
    requires Step(s, a, s') && Checks(s, a)
    ensures !InFlight(s', a.p)
  {
  }

  lemma {:induction false} InvalidIsRefused(
    states: seq<State>, actions: seq<Action>, p: Pid, i: nat, j: nat, k: nat)
    requires Served(states, actions, p, i, j) && i < k <= j && CleanRequest(actions[i].request).None?
    ensures StageOf(states[k], p) == Done(Reply(400, Nothing))
    decreases k
  {
    hide Inv, Step, Init, CleanRequest;
    InvAndStep(states, actions, k - 1);
    if k == i + 1 {
      InvalidStarts(states[i], actions[i], states[k]);
    } else {
      InvalidIsRefused(states, actions, p, i, j, k - 1);
      if actions[k - 1].p == p {
        NotIdleYet(states, actions, p, i, j, k - 1);
        DoneWaits(states[k - 1], actions[k - 1], states[k]);
      } else {
        StepOthers(states[k - 1], actions[k - 1], states[k], p);
      }
    }
  }

  lemma InvalidStarts(s: State, a: Action, s': State)
    requires Step(s, a, s') && a.Start? && CleanRequest(a.request).None?
    ensures StageOf(s', a.p) == Done(Reply(400, Nothing))
  {
    hide CleanRequest;
  }

  lemma DoneWaits(s: State, a: Action, s': State)
    requires Step(s, a, s') && StageOf(s, a.p).Done?
    ensures !a.Advance? && !a.Fail?
  {
  }

  lemma ChangeInOrder(states: seq<State>, actions: seq<Action>, p: Pid, i: nat, j: nat, r: Request)
    requires Served(states, actions, p, i, j) && p in states[j].wrote && states[j].procs[p].reply.status != 500
    requires CleanRequest(actions[i].request) == Some(r)
    ensures AnsweredInOrder(states[j], r, states[j].procs[p].reply, |states[i].log|)
  {
    hide Inv, Step, Init, BornOnce, NewOk, AskedOk, ReadOk, CleanRequest, SameAnswer, SerialReply;
    NotWroteAtRefusal(states, actions, j, p);
    AnswersRun(states, actions, j);
    CommitsSince(states, actions, p, i, j, j);
    assert WroteOk(states[j], p);
  }

  /** A PATCH that has changed nothing and not failed was refused by the check. */
  lemma PatchStatus(states: seq<State>, actions: seq<Action>, p: Pid, i: nat, j: nat, id: Id, edit: Edit)
    requires Served(states, actions, p, i, j) && p !in states[j].wrote && states[j].procs[p].reply.status != 500
    requires CleanRequest(actions[i].request) == Some(UpdateMessage(id, edit))
    ensures states[j].procs[p].reply.status in {404, 409}
  {
    hide Inv, Step, Init, CleanRequest, Known, FindsNothing, Checks;
    var u, c := PatchSoFar(states, actions, p, i, j, j, id, edit);
  }

  lemma CachedIsRead(states: seq<State>, actions: seq<Action>, p: Pid, i: nat, j: nat, r: Request, reply: Reply)
    requires Served(states, actions, p, i, j) && CleanRequest(actions[i].request) == Some(r)
    requires Cached(states, p, i, j, reply)
    ensures r.GetMessage?
  {
    hide Step, Init, CleanRequest;
    var l :| i < l < j && FromCache(states[l], p, reply);
    ServesAsked(states, actions, p, i, j, l, r);
  }

  /** Every answer but 500 has its place. A request that changes something is answered as its place
      in the commit order says. One that changes nothing is answered 400 by its own fault; or as the
      service that serves one request at a time, with no cache, would have answered at some moment
      while it was in flight; or with the copy in the cache at some such moment; or it is a PATCH
      answered 409 whose message was created meanwhile. */
  lemma EveryAnswerHasItsPlace(states: seq<State>, actions: seq<Action>, p: Pid, i: nat, j: nat)
    requires Served(states, actions, p, i, j) && states[j].procs[p].reply.status != 500
    ensures var reply := states[j].procs[p].reply;
            match CleanRequest(actions[i].request) {
              case None => reply == Reply(400, Nothing)
              case Some(r) =>
                if Changes(states, actions, p, i, j) then AnsweredInOrder(states[j], r, reply, |states[i].log|)
                else
                  || Placed(states, p, i, j, r, reply)
                  || (r.GetMessage? && Cached(states, p, i, j, reply))
                  || (r.UpdateMessage? && reply.status == 409
                      && CreatedMeanwhile(states, actions, p, i, j, r.id, r.edit))
            }
  {
    hide Step, Init, CleanRequest, Placed, Cached, CreatedMeanwhile, Changes, AnsweredInOrder;
    var reply := states[j].procs[p].reply;
    ChangesMark(states, actions, p, i, j, j);
    match CleanRequest(actions[i].request) {
      case None => InvalidIsRefused(states, actions, p, i, j, j);
      case Some(r) =>
        if Changes(states, actions, p, i, j) {
          ChangeInOrder(states, actions, p, i, j, r);
        } else if r.UpdateMessage? {
          PatchStatus(states, actions, p, i, j, r.id, r.edit);
          RefusedPatchInPlace(states, actions, p, i, j, r.id, r.edit);
        } else {
          DecidedSoFar(states, actions, p, i, j, j, r);
          if Cached(states, p, i, j, reply) { CachedIsRead(states, actions, p, i, j, r, reply); }
        }
    }
  }

  // ---- what a client makes of the answer to a version it has read --------------------------

  /** A process has been answered a body of the message. */
  predicate GotBody(s: State, q: Pid, body: MessageOut) {
    StageOf(s, q).Done? && StageOf(s, q).reply.payload == TheMessage(body)
  }

  lemma BodyIsKnown(s: State, q: Pid, body: MessageOut)
    requires Inv(s) && GotBody(s, q, body)
    ensures Known(s, body.id, body.version)
  {
    FailParts(s, q);
  }

  lemma {:induction false} KnownLasts(
    states: seq<State>, actions: seq<Action>, g: nat, i: nat, id: Id, version: int)
    requires IsExecution(states, actions) && g <= i < |states| && Known(states[g], id, version)
    ensures Known(states[i], id, version)
    decreases i
  {
    hide Inv, Step, Init, TablesFrame;
    if g < i {
      KnownLasts(states, actions, g, i - 1, id, version);
      InvAndStep(states, actions, i - 1);
      StepFrame(states[i - 1], actions[i - 1], states[i]);
    }
  }

  lemma CheckedIsPassed(s: State, p: Pid, id: Id, edit: Edit)
    requires Inv(s) && StageOf(s, p) == PatchCheck(id, edit, true)
    ensures id in s.history && (id in s.db.messages ==> s.db.messages[id].version > edit.version)
  {
    FailParts(s, p);
  }

  /** The own step that takes the row from the submitted version to the next. */
  predicate TakesNext(s: State, a: Action, s': State, id: Id, version: int) {
    && CommitsAt(s, a) && id in s.db.messages && s.db.messages[id].version == version
    && id in s'.db.messages && s'.db.messages[id].version == version + 1
  }

  lemma PatchTakesNext(s: State, p: Pid, d: Draw, id: Id, edit: Edit)
    requires Inv(s) && Commits(StageOf(s, p)) && StageRequest(StageOf(s, p)) == Some(UpdateMessage(id, edit))
    ensures TakesNext(s, Advance(p, d), AdvanceStep(s, p, d), id, edit.version)
  {
    PatchCommitHeld(s, p, id, edit);
    CommitIs(s, p, d);
    var st := StageOf(s, p);
    NextVersion(s, p, id, edit, st.row, st.out);
    hide Inv, AdvanceStep, Held, PatchCommitStep, PostCommitStep, DropCommitStep, StageRequest, Commits;
  }

  lemma CommitAdvances(s: State, a: Action, s': State)
    requires Step(s, a, s') && CommitsAt(s, a)
    ensures a.Advance? && s' == AdvanceStep(s, a.p, a.draw)
  {
    hide CanAdvance, AdvanceStep;
  }

  lemma NextVersion(s: State, p: Pid, id: Id, edit: Edit, row: Message, out: Option<MessageOut>)
    requires Held(s, id, edit, row)
    ensures var s' := PatchCommitStep(s, p, id, edit, row, out);
            && id in s.db.messages && s.db.messages[id].version == edit.version
            && id in s'.db.messages && s'.db.messages[id].version == edit.version + 1
  {
    hide Extended, ValidEdit, StorableEdit;
  }

  lemma PatchCommitHeld(s: State, p: Pid, id: Id, edit: Edit)
    requires Inv(s) && Commits(StageOf(s, p)) && StageRequest(StageOf(s, p)) == Some(UpdateMessage(id, edit))
    ensures var st := StageOf(s, p);
            st.PatchCommit? && st.id == id && Held(s, id, edit, st.row)
  {
    FailParts(s, p);
    hide Held, Inv;
  }

  /** A client submits the version of an answer that anybody got before. Answered 409, the row has
      passed that version; answered 404, the message is gone for good; either way at a moment while
      the request was in flight, and the service with no cache would have answered the same some
      time then. Answered with success, the row went from that version to the next. */
  lemma VersionOfAnAnswer(
    states: seq<State>, actions: seq<Action>, q: Pid, g: nat, body: MessageOut, p: Pid, i: nat, j: nat, edit: Edit)
    requires Served(states, actions, p, i, j) && g <= i && GotBody(states[g], q, body)
    requires CleanRequest(actions[i].request) == Some(UpdateMessage(body.id, edit)) && edit.version == body.version
    ensures var id, reply := body.id, states[j].procs[p].reply;
            && (reply.status == 409 ==>
                  exists c | i < c < j && InFlight(states[c], p) ::
                    id in states[c].db.messages && states[c].db.messages[id].version > body.version)
            && (reply.status == 404 ==>
                  exists c | i < c < j && InFlight(states[c], p) ::
                    forall k | c <= k < |states| :: id !in states[k].db.messages)
            && (reply.status in {404, 409} ==> Placed(states, p, i, j, UpdateMessage(id, edit), reply))
            && (reply.status != 500 && reply.status !in {404, 409} ==>
                  exists k | i < k < j && actions[k].p == p ::
                    TakesNext(states[k], actions[k], states[k + 1], id, body.version))
  {
    var id, reply := body.id, states[j].procs[p].reply;
    hide Inv, Step, Init, CleanRequest, Known, UpdateMatches, StorableEdit, InFlight, Placed, FindsNothing, TakesNext,
         CommitsAt;
    InvOf(states, actions, g);
    BodyIsKnown(states[g], q, body);
    KnownLasts(states, actions, g, i, id, body.version);
    if reply.status in {404, 409} {
      var u, c := RefusedSteps(states, actions, p, i, j, id, edit);
      InvOf(states, actions, c);
      CheckedIsPassed(states[c], p, id, edit);
      hide Checks;
      RefusedPatchInPlace(states, actions, p, i, j, id, edit);
      KnownWasThere(states, actions, p, i, j, id, edit);
      if reply.status == 404 {
        forall k | c <= k < |states|
          ensures id !in states[k].db.messages
        {
          GoneForGood(states, actions, c, k, id);
        }
      }
    } else if reply.status != 500 {
      if p !in states[j].wrote { PatchStatus(states, actions, p, i, j, id, edit); }
      ChangesMark(states, actions, p, i, j, j);
      var k :| i < k < j && actions[k].p == p && CommitsAt(states[k], actions[k]);
      ServesAsked(states, actions, p, i, j, k, UpdateMessage(id, edit));
      InvAndStep(states, actions, k);
      CommitServes(states[k], actions[k], UpdateMessage(id, edit));
      CommitAdvances(states[k], actions[k], states[k + 1]);
      PatchTakesNext(states[k], p, actions[k].draw, id, edit);
    }
  }

  lemma InvOf(states: seq<State>, actions: seq<Action>, k: nat)
    requires IsExecution(states, actions) && k < |states|
    ensures Inv(states[k])
  {
    ReachableIsOk(states, actions, k);
  }

  lemma CommitServes(s: State, a: Action, r: Request)
    requires CommitsAt(s, a)
    requires var st := StageOf(s, a.p);
             StageRequest(st) == Some(r) || st.Closing? || st.Done? || st.Idle?
    ensures StageRequest(StageOf(s, a.p)) == Some(r) && Commits(StageOf(s, a.p))
  {
  }

  lemma KnownWasThere(states: seq<State>, actions: seq<Action>, p: Pid, i: nat, j: nat, id: Id, edit: Edit)
    requires Served(states, actions, p, i, j) && Known(states[i], id, edit.version)
    ensures !CreatedMeanwhile(states, actions, p, i, j, id, edit)
  {
    hide Step, Init, FindsNothing, Checks;
    if CreatedMeanwhile(states, actions, p, i, j, id, edit) {
      var u: nat, c: nat :| i < u < c < j && actions[u].p == p == actions[c].p
        && FindsNothing(states[u], actions[u]) && id !in states[u].history
        && Checks(states[c], actions[c]) && id in states[c].db.messages;
      HistoryLasts(states, actions, i, u, id);
    }
  }
}
