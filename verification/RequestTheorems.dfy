/** Guarantees about single requests in every execution: when a request is answered 500, what the
    answer tells about the tables, and that a deleted message stays deleted. */
module RequestTheorems {
  import opened Validation
  import opened Relational
  import opened Protocol
  import opened ProtocolInvariant
  import opened ProtocolCommits
  import opened ProtocolTheorems

  // ---- which calls fail a request ----------------------------------------------------------

  /** The reply a stage is about to give, or has given. */
  function Answered(st: Stage): Option<Reply> {
    match st
    case Closing(r) => Some(r)
    case Done(r) => Some(r)
    case _ => None
  }

  predicate Failed(st: Stage) {
    Answered(st).Some? && Answered(st).value.status == 500
  }

  /** The statement that a stage is about to send is one the database fails. */
  predicate DatabaseRaises(s: State, st: Stage) {
    match st
    case PatchUpdate(id, edit, _) =>
      !StorableEdit(edit) || (UpdateMatches(s, id, edit) && edit.version == MAX_INT4)
    case PostInsert(title, content, _) => !Storable(title) || !Storable(content)
    case AddAuthor(name, email) => !Storable(name) || !Storable(email)
    case EditAuthor(_, name, email) => !StorableOption(name) || !StorableOption(email)
    case _ => false
  }

  predicate Raises(s: State, a: Action) {
    a.Fail? || (a.Advance? && DatabaseRaises(s, StageOf(s, a.p)))
  }

  lemma LoadFinds(s: State, id: Id)
    requires AuthorsExist(s.db)
    ensures !Load(s.db, id).NoAuthor?
  {
  }

  lemma ReloadFinds(s: State, id: Id, edit: Edit, row: Message)
    requires AuthorsExist(s.db) && Held(s, id, edit, row)
    ensures Load(s.db.(messages := s.db.messages[id := row]), id).Found?
  {
    hide ValidEdit, StorableEdit;
  }

  /** A step fails its request exactly when its call raises: a message always has its author, and
      the re-read after an update always finds the row. */
  lemma FailsExactlyWhenRaised(s: State, a: Action, s': State)
    requires Inv(s) && Step(s, a, s') && (a.Advance? || a.Fail?)
    ensures Failed(StageOf(s', a.p)) <==> Failed(StageOf(s, a.p)) || Raises(s, a)
  {
    hide Inv, CanAdvance, AdvanceStep, AuthorsExist, StageOk, DatabaseRaises, InFlight, Abandon;
    FailParts(s, a.p);
    match a
    case Advance(p, d) => AdvanceFails(s, p, d);
    case Fail(p) => AbandonLands(s, p, Closing(ServerError));
  }

  lemma AbandonLands(s: State, p: Pid, st: Stage)
    ensures StageOf(Abandon(s, p, st), p) == st
  {
  }

  lemma FailParts(s: State, p: Pid)
    requires Inv(s)
    ensures AuthorsExist(s.db) && StageOk(s, p, StageOf(s, p))
  {
    assert p in s.procs ==> StageOk(s, p, s.procs[p]);
  }

  lemma AdvanceFails(s: State, p: Pid, d: Draw)
    requires AuthorsExist(s.db) && StageOk(s, p, StageOf(s, p)) && CanAdvance(s, p, d)
    ensures Failed(StageOf(AdvanceStep(s, p, d), p)) <==>
            Failed(StageOf(s, p)) || DatabaseRaises(s, StageOf(s, p))
  {
    hide GetStep, PatchStep, DropStep, PostStep, AuthorStep, StageOk, CanAdvance, DatabaseRaises, AuthorsExist;
    GetFails(s, p);
    PatchFails(s, p);
    DropFails(s, p);
    PostFails(s, p, d);
    AuthorFails(s, p, d);
    GotoLands(p);
    OtherStagesRaise(s, p, d);
  }

  lemma OtherStagesRaise(s: State, p: Pid, d: Draw)
    requires CanAdvance(s, p, d)
    ensures var st := StageOf(s, p);
            InGet(st) || InPatch(st) || InDrop(st) || InPost(st) || InAuthors(st)
            || (st.Closing? && !DatabaseRaises(s, st))
  {
  }

  lemma GetFails(s: State, p: Pid)
    requires AuthorsExist(s.db)
    ensures InGet(StageOf(s, p)) ==>
              !Failed(StageOf(GetStep(s, p), p)) && !DatabaseRaises(s, StageOf(s, p))
  {
    GotoLands(p);
    if StageOf(s, p).GetLoad? { LoadFinds(s, StageOf(s, p).id); }
    hide Goto, AuthorsExist, Load;
  }

  lemma PatchFails(s: State, p: Pid)
    requires AuthorsExist(s.db) && StageOk(s, p, StageOf(s, p))
    ensures InPatch(StageOf(s, p)) ==>
              (Failed(StageOf(PatchStep(s, p), p)) <==> DatabaseRaises(s, StageOf(s, p)))
  {
    PatchStageParts(s, p);
    hide AuthorsExist, StageOk, Held, Failed, DatabaseRaises, PatchUpdateStep, PatchReloadStep, PatchCommitStep,
         PatchEvictStep, PatchHealStep, PatchCheckStep;
    match StageOf(s, p)
    case PatchUpdate(id, edit, read) => UpdateFails(s, p, id, edit, read);
    case PatchReload(id, edit, row) => ReloadFails(s, p, id, edit, row);
    case PatchCommit(id, edit, row, out) => LaterFails(s, p);
    case PatchEvict(id, edit, out, k) => EvictFails(s, p, id, edit, out, k);
    case PatchRollback(id, edit, read) => LaterFails(s, p);
    case PatchHeal(id, edit, read) => LaterFails(s, p);
    case PatchCheck(id, edit, read) => LaterFails(s, p);
    case _ =>
  }

  lemma UpdateFails(s: State, p: Pid, id: Id, edit: Edit, read: bool)
    ensures Failed(StageOf(PatchUpdateStep(s, p, id, edit, read), p)) <==>
            DatabaseRaises(s, PatchUpdate(id, edit, read))
  {
    hide UpdateMatches, StorableEdit;
  }

  lemma ReloadFails(s: State, p: Pid, id: Id, edit: Edit, row: Message)
    requires AuthorsExist(s.db) && Held(s, id, edit, row)
    ensures !Failed(StageOf(PatchReloadStep(s, p, id, edit, row), p)) && !DatabaseRaises(s, PatchReload(id, edit, row))
  {
    ReloadFinds(s, id, edit, row);
    hide AuthorsExist, Held, Load;
  }

  lemma EvictFails(s: State, p: Pid, id: Id, edit: Edit, out: Option<MessageOut>, k: nat)
    requires out.Some?
    ensures !Failed(StageOf(PatchEvictStep(s, p, id, out, k), p)) && !DatabaseRaises(s, PatchEvict(id, edit, out, k))
  {
    hide Evicted;
  }

  lemma LaterFails(s: State, p: Pid)
    requires var st := StageOf(s, p); st.PatchCommit? || st.PatchRollback? || st.PatchHeal? || st.PatchCheck?
    ensures !Failed(StageOf(PatchStep(s, p), p)) && !DatabaseRaises(s, StageOf(s, p))
  {
    GotoLands(p);
    hide Goto, Extended, PatchUpdateStep, PatchReloadStep, PatchEvictStep;
  }

  lemma PatchStageParts(s: State, p: Pid)
    requires StageOk(s, p, StageOf(s, p))
    ensures var st := StageOf(s, p);
            && (st.PatchReload? ==> Held(s, st.id, st.edit, st.row))
            && (st.PatchEvict? ==> st.out.Some?)
  {
    hide BodyOk, Applied, OwesFor, Held, Passed;
  }

  lemma DropFails(s: State, p: Pid)
    ensures InDrop(StageOf(s, p)) ==>
              !Failed(StageOf(DropStep(s, p), p)) && !DatabaseRaises(s, StageOf(s, p))
  {
    GotoLands(p);
    hide Goto, Evicted;
  }

  lemma PostFails(s: State, p: Pid, d: Draw)
    ensures InPost(StageOf(s, p)) ==>
              (Failed(StageOf(PostStep(s, p, d), p)) <==> DatabaseRaises(s, StageOf(s, p)))
  {
    GotoLands(p);
    hide Goto, Extended, Storable;
  }

  lemma AuthorFails(s: State, p: Pid, d: Draw)
    ensures InAuthors(StageOf(s, p)) ==>
              (Failed(StageOf(AuthorStep(s, p, d), p)) <==> DatabaseRaises(s, StageOf(s, p)))
  {
    GotoLands(p);
    hide Goto, EmailTaken, Referenced, Storable, StorableOption, Changed, WithAuthor;
  }

  // ---- from its start to its answer --------------------------------------------------------

  predicate NoStart(actions: seq<Action>, p: Pid, i: nat, j: nat)
    requires j <= |actions|
  {
    forall k | i <= k < j :: !(actions[k].Start? && actions[k].p == p)
  }

  /** The i-th action is the start of a request of p that is answered in the j-th state. */
  predicate Served(states: seq<State>, actions: seq<Action>, p: Pid, i: nat, j: nat) {
    && IsExecution(states, actions) && i < j < |states|
    && actions[i].Start? && actions[i].p == p && NoStart(actions, p, i + 1, j)
    && p in states[j].procs && states[j].procs[p].Done?
  }

  lemma IdleStep(s: State, a: Action, s': State, p: Pid)
    requires Inv(s) && Step(s, a, s') && StageOf(s, p).Idle? && !(a.Start? && a.p == p)
    ensures StageOf(s', p).Idle?
  {
    if a.p != p {
      hide Inv, Step;
      StepOthers(s, a, s', p);
    }
  }

  /** A call of the request raised before the k-th state. */
  predicate Raised(states: seq<State>, actions: seq<Action>, p: Pid, i: nat, k: nat)
    requires |states| == |actions| + 1 && k < |states|
  {
    exists l | i < l < k :: actions[l].p == p && Raises(states[l], actions[l])
  }

  /** The request has committed its change, and has calls still to make. */
  predicate Committed(st: Stage) {
    st.PatchEvict? || (st.DropEvict? && st.deleted.Some?) || (st.Closing? && st.reply.status < 400)
  }

  /** A call that came after the request's commit raised. */
  predicate RaisedLate(states: seq<State>, actions: seq<Action>, p: Pid, i: nat, k: nat)
    requires |states| == |actions| + 1 && k < |states|
  {
    exists l | i < l < k :: actions[l].p == p && Raises(states[l], actions[l]) && Committed(StageOf(states[l], p))
  }

  /** The step commits a change of the request. */
  predicate CommitsAt(s: State, a: Action) {
    a.Advance? && Commits(StageOf(s, a.p))
  }

  lemma WroteStep(s: State, a: Action, s': State)
    requires Step(s, a, s') && (a.Advance? || a.Fail?)
    ensures a.p in s'.wrote <==> a.p in s.wrote || CommitsAt(s, a)
    ensures !CommitsAt(s, a) ==> s'.db == s.db && s'.log == s.log
  {
    hide CanAdvance, AdvanceStep, Commits, InFlight;
    if a.Advance? {
      if Commits(StageOf(s, a.p)) {
        CommitsWrote(s, a.p, a.draw);
      } else {
        OnlyCommitsWrite(s, a.p, a.draw);
      }
    }
  }

  /** Between its commit and its answer a request is in a stage that shows it. */
  lemma WroteShows(s: State, p: Pid)
    requires Inv(s)
    ensures var st := StageOf(s, p);
            !Failed(st) && !st.Done? && !st.Idle? ==> (p in s.wrote <==> Committed(st))
  {
    FailParts(s, p);
    hide Inv, BodyOk, ValidMessage, ValidAuthor, ValidText, ValidAddress, Held, Passed, Applied, OwesFor, LoadOk,
         Editing;
  }

  lemma InvAndStep(states: seq<State>, actions: seq<Action>, k: nat)
    requires IsExecution(states, actions) && k < |actions|
    ensures Inv(states[k]) && Step(states[k], actions[k], states[k + 1])
  {
    hide Core, LogOk;
    ReachableIsOk(states, actions, k);
  }

  lemma StartBegins(s: State, p: Pid, r: Request)
    ensures var s' := StartStep(s, p, r);
            && s'.db == s.db && s'.log == s.log && p !in s'.wrote
            && !Failed(StageOf(s', p)) && !Committed(StageOf(s', p)) && !StageOf(s', p).Idle?
  {
    if CleanRequest(r).Some? { FirstStageBegins(s, CleanRequest(r).value); }
    hide CleanRequest, FirstStage;
  }

  lemma FirstStageBegins(s: State, r: Request)
    ensures var st := FirstStage(s, r); !Failed(st) && !Committed(st) && !st.Idle?
  {
    hide Known;
  }

  /** What has become of a request so far: it has failed iff one of its calls raised, and has
      committed and failed iff a call raised after the commit. */
  lemma {:induction false} SoFar(states: seq<State>, actions: seq<Action>, p: Pid, i: nat, j: nat, k: nat)
    requires Served(states, actions, p, i, j) && i < k <= j
    ensures Failed(StageOf(states[k], p)) <==> Raised(states, actions, p, i, k)
    ensures Failed(StageOf(states[k], p)) && p in states[k].wrote <==> RaisedLate(states, actions, p, i, k)
    ensures !StageOf(states[k], p).Idle?
    decreases k
  {
    hide Inv, Step, Failed, Raises, Committed, Init;
    InvAndStep(states, actions, k - 1);
    var s, a, s' := states[k - 1], actions[k - 1], states[k];
    if k == i + 1 {
      StartedBy(s, a, s');
    } else {
      SoFar(states, actions, p, i, j, k - 1);
      NotIdleYet(states, actions, p, i, j, k - 1);
      NotIdleYet(states, actions, p, i, j, k);
      if a.p == p {
        OwnProgress(s, a, s');
        RaisedStep(states, actions, p, i, k);
      } else {
        StepOthers(s, a, s', p);
        OthersWrote(s, a, s', p);
        RaisedStep(states, actions, p, i, k);
      }
    }
  }

  lemma StartedBy(s: State, a: Action, s': State)
    requires Step(s, a, s') && a.Start?
    ensures !Failed(StageOf(s', a.p)) && a.p !in s'.wrote && !StageOf(s', a.p).Idle?
    ensures s'.db == s.db && s'.log == s.log
  {
    hide CleanRequest, Failed, Committed;
    StartBegins(s, a.p, a.request);
  }

  lemma {:induction false} IdleStays(states: seq<State>, actions: seq<Action>, p: Pid, k: nat, j: nat)
    requires IsExecution(states, actions) && k <= j < |states| && NoStart(actions, p, k, j)
    requires StageOf(states[k], p).Idle?
    ensures StageOf(states[j], p).Idle?
    decreases j
  {
    hide Inv, Step, Init;
    if k < j {
      IdleStays(states, actions, p, k, j - 1);
      InvAndStep(states, actions, j - 1);
      IdleStep(states[j - 1], actions[j - 1], states[j], p);
    }
  }

  /** A request that is answered did not go away before. */
  lemma NotIdleYet(states: seq<State>, actions: seq<Action>, p: Pid, i: nat, j: nat, k: nat)
    requires Served(states, actions, p, i, j) && i < k <= j
    ensures !StageOf(states[k], p).Idle?
    ensures k < j && actions[k].p == p ==> actions[k].Advance? || actions[k].Fail?
  {
    hide Step;
    if StageOf(states[k], p).Idle? {
      IdleStays(states, actions, p, k, j);
    }
    if k < j && actions[k].p == p && actions[k].Crash? {
      InvAndStep(states, actions, k);
      CrashIdles(states[k], actions[k], states[k + 1]);
      IdleStays(states, actions, p, k + 1, j);
    }
  }

  lemma CrashIdles(s: State, a: Action, s': State)
    requires Step(s, a, s') && a.Crash?
    ensures StageOf(s', a.p).Idle?
  {
  }

  lemma OthersWrote(s: State, a: Action, s': State, p: Pid)
    requires Inv(s) && Step(s, a, s') && p != a.p && p in s.procs
    ensures p in s'.wrote <==> p in s.wrote
  {
    hide Inv, Step;
    StepKeeps(s, a, s');
  }

  /** One step of its own. */
  lemma OwnProgress(s: State, a: Action, s': State)
    requires Inv(s) && Step(s, a, s') && (a.Advance? || a.Fail?)
    ensures Failed(StageOf(s', a.p)) <==> Failed(StageOf(s, a.p)) || Raises(s, a)
    ensures Failed(StageOf(s', a.p)) && a.p in s'.wrote <==>
            || (Failed(StageOf(s, a.p)) && a.p in s.wrote)
            || (Raises(s, a) && Committed(StageOf(s, a.p)))
  {
    FailsExactlyWhenRaised(s, a, s');
    WroteStep(s, a, s');
    WroteShows(s, a.p);
    InFlightSteps(s, a, s');
    hide Inv, Step;
  }

  lemma InFlightSteps(s: State, a: Action, s': State)
    requires Step(s, a, s') && (a.Advance? || a.Fail?)
    ensures !StageOf(s, a.p).Done? && !StageOf(s, a.p).Idle?
    ensures Failed(StageOf(s, a.p)) ==> !Commits(StageOf(s, a.p)) && !Committed(StageOf(s, a.p))
    ensures Raises(s, a) ==> !CommitsAt(s, a)
  {
    hide UpdateMatches, StorableEdit, Storable, StorableOption, CanUpdate, CanInsert, CanAdd, CanEdit, AdvanceStep;
  }

  lemma RaisedStep(states: seq<State>, actions: seq<Action>, p: Pid, i: nat, k: nat)
    requires |states| == |actions| + 1 && i + 1 < k < |states|
    ensures var s, a := states[k - 1], actions[k - 1];
            && (Raised(states, actions, p, i, k) <==>
                Raised(states, actions, p, i, k - 1) || (a.p == p && Raises(s, a)))
            && (RaisedLate(states, actions, p, i, k) <==>
                RaisedLate(states, actions, p, i, k - 1)
                || (a.p == p && Raises(s, a) && Committed(StageOf(s, p))))
  {
    hide Raises, Committed;
  }

  /** A request is answered 500 iff one of its calls raised: a call to the database or the cache
      failed, a text has U+0000, or a version leaves its column. */
  lemma ServerErrorExactly(states: seq<State>, actions: seq<Action>, p: Pid, i: nat, j: nat)
    requires Served(states, actions, p, i, j)
    ensures states[j].procs[p].reply.status == 500 <==> Raised(states, actions, p, i, j)
  {
    hide Raises, Step, Init;
    SoFar(states, actions, p, i, j, j);
  }

  /** One of the request's own steps commits a change. */
  predicate Changes(states: seq<State>, actions: seq<Action>, p: Pid, i: nat, j: nat)
    requires |states| == |actions| + 1 && j < |states|
  {
    exists k | i < k < j :: actions[k].p == p && CommitsAt(states[k], actions[k])
  }

  lemma {:induction false} ChangesMark(
    states: seq<State>, actions: seq<Action>, p: Pid, i: nat, j: nat, k: nat)
    requires Served(states, actions, p, i, j) && i < k <= j
    ensures p in states[k].wrote <==> Changes(states, actions, p, i, k)
    decreases k
  {
    hide Inv, Step, CommitsAt, Init;
    InvAndStep(states, actions, k - 1);
    var s, a, s' := states[k - 1], actions[k - 1], states[k];
    if k == i + 1 {
      StartedBy(s, a, s');
    } else {
      ChangesMark(states, actions, p, i, j, k - 1);
      NotIdleYet(states, actions, p, i, j, k - 1);
      if a.p == p {
        WroteStep(s, a, s');
      } else {
        OthersWrote(s, a, s', p);
      }
    }
  }

  /** The answer tells what became of the tables. A request answered 400, 404 or 409 changed
      nothing; one answered 500 changed nothing either, unless the call that raised came after its
      commit; and nothing but a commit of its own changes a row. */
  lemma RefusedChangesNothing(states: seq<State>, actions: seq<Action>, p: Pid, i: nat, j: nat)
    requires Served(states, actions, p, i, j)
    ensures var status := states[j].procs[p].reply.status;
            && (status in {400, 404, 409} ==> !Changes(states, actions, p, i, j))
            && (status == 500 ==> (Changes(states, actions, p, i, j) <==> RaisedLate(states, actions, p, i, j)))
    ensures !Changes(states, actions, p, i, j) ==>
              forall k | i <= k < j && actions[k].p == p :: states[k + 1].db == states[k].db
  {
    hide Raises, Committed, Step, CommitsAt, Init;
    SoFar(states, actions, p, i, j, j);
    ChangesMark(states, actions, p, i, j, j);
    if p in states[j].wrote {
      NotWroteAtRefusal(states, actions, j, p);
    }
    forall k | i <= k < j && actions[k].p == p && !Changes(states, actions, p, i, j)
      ensures states[k + 1].db == states[k].db
    {
      InvAndStep(states, actions, k);
      if k == i {
        StartedBy(states[k], actions[k], states[k + 1]);
      } else {
        NotIdleYet(states, actions, p, i, j, k);
        WroteStep(states[k], actions[k], states[k + 1]);
      }
    }
  }

  lemma NotWroteAtRefusal(states: seq<State>, actions: seq<Action>, j: nat, p: Pid)
    requires IsExecution(states, actions) && j < |states|
    requires p in states[j].procs && states[j].procs[p].Done? && p in states[j].wrote
    ensures states[j].procs[p].reply.status in {200, 201, 204, 500}
  {
    hide Core, Sound, HistoryOk, CacheOk, CommitsOk;
    ReachableParts(states, actions, j);
    assert StageOk(states[j], p, states[j].procs[p]);
  }

  /** That a 500 can come with a changed row: whenever a PATCH is about to commit, its eviction may
      raise, and then the client is answered 500, the row has the next version, and a stale entry
      stays where it was. */
  lemma FailedEvictionKeepsChange(s: State, p: Pid, d: Draw)
    requires Inv(s) && StageOf(s, p).PatchCommit?
    ensures var id, row := StageOf(s, p).id, StageOf(s, p).row;
            var s1 := Apply(s, Advance(p, d));
            var s2 := Apply(s1, Fail(p));
            var s3 := Apply(s2, Advance(p, d));
            && Step(s, Advance(p, d), s1) && Step(s1, Fail(p), s2) && Step(s2, Advance(p, d), s3)
            && StageOf(s3, p) == Done(ServerError)
            && s3.db == s.db.(messages := s.db.messages[id := row]) && s3.cache == s.cache
  {
    hide Inv, Extended, Evicted;
  }

  // ---- a deleted message stays deleted -----------------------------------------------------

  /** Ids are not reused: once a message that was committed is gone, it is gone for good. */
  lemma {:induction false} GoneForGood(
    states: seq<State>, actions: seq<Action>, i: nat, j: nat, id: Id)
    requires IsExecution(states, actions) && i <= j < |states|
    requires id in states[i].history && id !in states[i].db.messages
    ensures id in states[j].history && id !in states[j].db.messages
  {
    hide Inv, Step, Init;
    if i < j {
      GoneForGood(states, actions, i, j - 1, id);
      InvAndStep(states, actions, j - 1);
      GoneStep(states[j - 1], actions[j - 1], states[j], id);
    }
  }

  lemma GoneStep(s: State, a: Action, s': State, id: Id)
    requires Inv(s) && Step(s, a, s') && id in s.history && id !in s.db.messages
    ensures id in s'.history && id !in s'.db.messages
  {
    hide Inv, Step;
    StepFrame(s, a, s');
    assert RowTracked(s, s', id);
  }
}
