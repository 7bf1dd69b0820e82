/** What the running service guarantees in every state of every execution. */
module ProtocolTheorems {
  import opened Validation
  import opened Relational
  import opened Protocol
  import opened ProtocolInvariant
  import opened ProtocolCommits

  // ---- the tables --------------------------------------------------------------------------

  /** Writes are serialisable: the committed tables are what serving the committed requests one
      at a time, in commit order and with no cache, leaves behind, and each of them succeeds
      there. */
  lemma WritesAreSerialisable(states: seq<State>, actions: seq<Action>, i: nat)
    requires IsExecution(states, actions) && i < |states|
    ensures Replay(states[i].log) == states[i].db
    ensures forall k | 0 <= k < |states[i].log| ::
              var e := states[i].log[k];
              ValidRequest(e.request)
              && Exec(Replay(states[i].log[..k]), e.request, e.draw).reply.status < 400
  {
    hide Core;
    ReachableIsOk(states, actions, i);
  }

  /** Every committed message has a committed author, emails stay unique, and every stored text is
      trimmed, non-blank and within its limit. */
  lemma TablesStaySound(states: seq<State>, actions: seq<Action>, i: nat)
    requires IsExecution(states, actions) && i < |states|
    ensures Sound(states[i].db)
  {
    hide Sound, LogOk;
    ReachableIsOk(states, actions, i);
  }

  // ---- no lost update ----------------------------------------------------------------------

  predicate IsPatch(e: LogEntry, id: Id, version: int) {
    e.request.UpdateMessage? && e.request.id == id && e.request.edit.version == version
  }

  /** The committed PATCH made the version after the one it submitted, out of the row it submitted
      it for. */
  predicate Made(s: State, e: LogEntry) {
    e.request.UpdateMessage? ==>
      && Known(s, e.request.id, e.request.edit.version + 1)
      && e.request.edit.version >= 0
      && var h, edit := s.history[e.request.id], e.request.edit;
         FollowsBy(h[edit.version], h[edit.version + 1], edit)
  }

  /** The row after a PATCH: the submitted content, the submitted title or else the old one, the next
      version, and author and creation time as they were. */
  predicate FollowsBy(row: Message, next: Message, edit: Edit) {
    && next.content == edit.content && next.version == row.version + 1
    && next.title == (if edit.title.Some? then edit.title.value else row.title)
    && next.authorId == row.authorId && next.createdAt == row.createdAt
  }

  predicate Patched(s: State, id: Id, version: nat) {
    exists k | 0 <= k < |s.log| :: IsPatch(s.log[k], id, version)
  }

  predicate NoLostUpdate(s: State) {
    && (forall k | 0 <= k < |s.log| :: Made(s, s.log[k]))
    && (forall id, v: nat | id in s.history && v + 1 < |s.history[id]| :: Patched(s, id, v))
    && (forall j, k | 0 <= j < k < |s.log| && s.log[j].request.UpdateMessage? ::
          !IsPatch(s.log[k], s.log[j].request.id, s.log[j].request.edit.version))
  }

  lemma MadeStable(s: State, s': State, e: LogEntry)
    requires Made(s, e) && forall id | id in s.history :: id in s'.history && Prefix(s.history[id], s'.history[id])
    ensures Made(s', e)
  {
    if e.request.UpdateMessage? {
      assert Prefix(s.history[e.request.id], s'.history[e.request.id]);
    }
  }

  lemma PatchedStable(s: State, s': State, id: Id, version: nat)
    requires Patched(s, id, version) && Prefix(s.log, s'.log)
    ensures Patched(s', id, version)
  {
    var k :| 0 <= k < |s.log| && IsPatch(s.log[k], id, version);
    assert s'.log[k] == s.log[k];
  }

  /** The log grows by something other than a PATCH, and at most a first version is written. */
  predicate OtherCommit(s: State, s': State) {
    && Prefix(s.log, s'.log)
    && (forall k | |s.log| <= k < |s'.log| :: !s'.log[k].request.UpdateMessage?)
    && (forall id | id in s'.history && id !in s.history :: |s'.history[id]| == 1)
    && (forall id | id in s.history :: id in s'.history && s'.history[id] == s.history[id])
  }

  lemma OtherCommitted(s: State, s': State)
    requires NoLostUpdate(s) && OtherCommit(s, s')
    ensures NoLostUpdate(s')
  {
    forall k | 0 <= k < |s'.log|
      ensures Made(s', s'.log[k])
    {
      if k < |s.log| {
        assert s'.log[k] == s.log[k];
        MadeStable(s, s', s.log[k]);
      }
    }
    forall id, v: nat | id in s'.history && v + 1 < |s'.history[id]|
      ensures Patched(s', id, v)
    {
      PatchedStable(s, s', id, v);
    }
    assert forall j | 0 <= j < |s.log| :: s'.log[j] == s.log[j];
  }

  lemma PatchCommitted(s: State, p: Pid, id: Id, edit: Edit, row: Message, out: Option<MessageOut>)
    requires NoLostUpdate(s) && HistoryOk(s) && Held(s, id, edit, row)
    ensures NoLostUpdate(PatchCommitStep(s, p, id, edit, row, out))
  {
    hide ValidEdit, ValidMessage;
    var s' := PatchCommitStep(s, p, id, edit, row, out);
    var n := |s.log|;
    assert Chain(s.history[id]);
    assert |s.history[id]| == edit.version + 1;
    assert IsPatch(s'.log[n], id, edit.version) && Made(s', s'.log[n]);
    assert forall j | 0 <= j < n :: s'.log[j] == s.log[j];
    forall k | 0 <= k < n
      ensures Made(s', s'.log[k]) && !IsPatch(s'.log[k], id, edit.version)
    {
      assert Made(s, s.log[k]);
      MadeStable(s, s', s.log[k]);
    }
    hide Made;
    forall a, v: nat | a in s'.history && v + 1 < |s'.history[a]|
      ensures Patched(s', a, v)
    {
      if a != id || v < edit.version {
        PatchedStable(s, s', a, v);
      } else {
        assert IsPatch(s'.log[n], a, v);
      }
    }
  }

  lemma CommitParts(s: State, p: Pid)
    requires Core(s) && p in s.procs
    ensures HistoryOk(s)
    ensures s.procs[p].PatchCommit? ==> Held(s, s.procs[p].id, s.procs[p].edit, s.procs[p].row)
    ensures s.procs[p].PostCommit? ==> s.procs[p].id !in s.history
  {
    assert StageOk(s, p, s.procs[p]);
    hide Sound, Held;
  }

  lemma PostLogs(s: State, p: Pid, id: Id, row: Message, author: AuthorOut)
    requires id !in s.history
    ensures OtherCommit(s, PostCommitStep(s, p, id, row, author))
  {
    assert [] + [row] == [row];
    OneMore(s, PostCommitStep(s, p, id, row, author), id, row);
  }

  lemma DropLogs(s: State, p: Pid, id: Id)
    ensures OtherCommit(s, DropCommitStep(s, p, id, true))
  {
    Logging(s, DropCommitStep(s, p, id, true));
  }

  lemma AddLogs(s: State, p: Pid, id: Id, a: Author)
    ensures OtherCommit(s, AddCommitStep(s, p, id, a))
  {
    Logging(s, AddCommitStep(s, p, id, a));
  }

  lemma EditLogs(s: State, p: Pid, id: Id, name: Option<string>, email: Option<string>, before: Author)
    ensures OtherCommit(s, EditCommitStep(s, p, id, name, email, before))
  {
    hide Changed;
    Logging(s, EditCommitStep(s, p, id, name, email, before));
  }

  lemma RemoveLogs(s: State, p: Pid, id: Id, removed: Option<Author>)
    requires removed.Some?
    ensures OtherCommit(s, RemoveCommitStep(s, p, id, removed))
  {
    Logging(s, RemoveCommitStep(s, p, id, removed));
  }

  lemma OtherAdvance(s: State, p: Pid, d: Draw)
    requires !StageOf(s, p).PatchCommit?
    requires StageOf(s, p).PostCommit? ==> StageOf(s, p).id !in s.history
    ensures OtherCommit(s, AdvanceStep(s, p, d))
  {
    hide OtherCommit, AdvanceStep, AuthorStep, PostCommitStep, DropCommitStep, AddCommitStep, EditCommitStep,
         RemoveCommitStep;
    if Commits(StageOf(s, p)) {
      CommitIs(s, p, d);
      if InAuthors(StageOf(s, p)) { AuthorCommitIs(s, p, d); }
      match StageOf(s, p)
      case PostCommit(id, row, author) => PostLogs(s, p, id, row, author);
      case DropCommit(id, found) => DropLogs(s, p, id);
      case AddCommit(id, a) => AddLogs(s, p, id, a);
      case EditCommit(id, name, email, before) => EditLogs(s, p, id, name, email, before);
      case RemoveCommit(id, removed) => RemoveLogs(s, p, id, removed);
    } else {
      OnlyCommitsWrite(s, p, d);
      NoMore(s, AdvanceStep(s, p, d));
    }
  }

  lemma NoMore(s: State, s': State)
    requires s'.log == s.log && s'.history == s.history
    ensures OtherCommit(s, s')
  {
  }

  lemma Logging(s: State, s': State)
    requires |s'.log| == |s.log| + 1 && s'.log[..|s.log|] == s.log
    requires !s'.log[|s.log|].request.UpdateMessage? && s'.history == s.history
    ensures OtherCommit(s, s')
  {
  }

  lemma OneMore(s: State, s': State, id: Id, row: Message)
    requires |s'.log| == |s.log| + 1 && s'.log[..|s.log|] == s.log
    requires !s'.log[|s.log|].request.UpdateMessage?
    requires id !in s.history && s'.history == s.history[id := [row]]
    ensures OtherCommit(s, s')
  {
  }

  lemma NoLostUpdateStep(s: State, a: Action, s': State)
    requires Core(s) && NoLostUpdate(s) && Step(s, a, s')
    ensures NoLostUpdate(s')
  {
    hide Core, CanAdvance, NoLostUpdate, Held, CleanRequest, OtherCommit;
    if a.Advance? && StageOf(s, a.p).PatchCommit? {
      CommitParts(s, a.p);
      var st := s.procs[a.p];
      PatchCommitted(s, a.p, st.id, st.edit, st.row, st.out);
    } else {
      if a.Advance? {
        if a.p in s.procs {
          CommitParts(s, a.p);
        }
        OtherAdvance(s, a.p, a.draw);
      } else {
        NoMore(s, s');
      }
      OtherCommitted(s, s');
    }
  }

  /** In every state of every execution each committed PATCH made exactly the version after the one
      it submitted, every version after the first was made by a committed PATCH, and no two
      committed PATCHes submitted the same version of the same message. */
  lemma {:induction false} NoLostUpdateRun(states: seq<State>, actions: seq<Action>, i: nat)
    requires IsExecution(states, actions) && i < |states|
    ensures NoLostUpdate(states[i])
  {
    hide NoLostUpdate, Inv, Core, Step, Init;
    if i > 0 {
      NoLostUpdateRun(states, actions, i - 1);
      ReachableIsOk(states, actions, i - 1);
      InvIsCore(states[i - 1]);
      NoLostUpdateStep(states[i - 1], actions[i - 1], states[i]);
    } else {
      NothingLost(states[0]);
    }
  }

  lemma NothingLost(s: State)
    requires Init(s)
    ensures NoLostUpdate(s)
  {
  }

  lemma InvIsCore(s: State)
    requires Inv(s)
    ensures Core(s)
  {
  }

  // ---- the cache ---------------------------------------------------------------------------

  /** The message fields of a body are those of the committed row. */
  predicate Agrees(s: State, body: MessageOut) {
    body.id in s.db.messages && ShowsRow(body, s.db.messages[body.id])
  }

  lemma ReachableParts(states: seq<State>, actions: seq<Action>, i: nat)
    requires IsExecution(states, actions) && i < |states|
    ensures Core(states[i]) && HistoryOk(states[i]) && CacheOk(states[i]) && CommitsOk(states[i])
    ensures StagesOk(states[i], states[i].procs.Keys)
  {
    ReachableIsOk(states, actions, i);
    hide Sound, HistoryOk, CacheOk, CommitsOk, StagesOk, LogOk;
  }

  /** However stale, a cached body or a body in a reply is one committed version of its message,
      with author fields that were once committed together. */
  lemma BodiesWereCommitted(states: seq<State>, actions: seq<Action>, i: nat)
    requires IsExecution(states, actions) && i < |states|
    ensures forall id | id in states[i].cache ::
              states[i].cache[id].body.id == id && BodyOk(states[i], states[i].cache[id].body)
    ensures forall p | p in states[i].procs && states[i].procs[p].Done? ::
              var r := states[i].procs[p].reply;
              r.payload.TheMessage? ==> BodyOk(states[i], r.payload.message)
  {
    hide BodyOk, Sound, HistoryOk, CommitsOk, LoadOk, Core;
    var s := states[i];
    ReachableParts(states, actions, i);
    forall id | id in s.cache
      ensures s.cache[id].body.id == id && BodyOk(s, s.cache[id].body)
    {
      assert EntryOk(s, id, s.cache[id]);
    }
    forall p | p in s.procs && s.procs[p].Done?
      ensures var r := s.procs[p].reply; r.payload.TheMessage? ==> BodyOk(s, r.payload.message)
    {
      assert StageOk(s, p, s.procs[p]);
    }
  }

  /** The eviction after a commit has not cleared the entry: it is still to come, it was lost with
      its process, or it came before the entry was put in the cache. */
  predicate Missed(s: State, k: nat, e: Entry)
    requires k < |s.commits|
  {
    var c := s.commits[k];
    match c.eviction
    case Pending => Owed(StageOf(s, c.owner)) == Some(k)
    case Lost => true
    case At(time) => time < e.setAt
  }

  /** Staleness, exactly: an entry disagrees with the committed row, or has none, iff some PATCH or
      DELETE of the message committed after the entry was loaded; and the eviction of every such
      commit missed the entry. */
  lemma StaleExactly(states: seq<State>, actions: seq<Action>, i: nat, id: Id)
    requires IsExecution(states, actions) && i < |states| && id in states[i].cache
    ensures var s, e := states[i], states[i].cache[id];
            && (!Agrees(s, e.body) <==> CommittedSince(s, id, e.loadedAt))
            && forall k | 0 <= k < |s.commits| && s.commits[k].id == id && s.commits[k].at > e.loadedAt ::
                 Missed(s, k, e)
  {
    hide Sound, HistoryOk, CacheOk, CommitsOk, StagesOk, Core, Agrees, Missed;
    ReachableParts(states, actions, i);
    EntryFacts(states[i], id);
  }

  lemma EntryFacts(s: State, id: Id)
    requires HistoryOk(s) && CacheOk(s) && CommitsOk(s) && id in s.cache
    ensures var e := s.cache[id];
            && (!Agrees(s, e.body) <==> CommittedSince(s, id, e.loadedAt))
            && forall k | 0 <= k < |s.commits| && s.commits[k].id == id && s.commits[k].at > e.loadedAt ::
                 Missed(s, k, e)
  {
    hide ValidMessage;
    var e := s.cache[id];
    assert EntryOk(s, id, e);
    assert Chain(s.history[id]);
    assert Agrees(s, e.body) <==> Current(s, e.body);
  }

  // ---- PATCH -------------------------------------------------------------------------------

  /** When a PATCH has committed, its re-read found the row: the answer to come has the submitted
      content and title and the next version, and was committed as such. */
  lemma CommittedPatchAnswers(states: seq<State>, actions: seq<Action>, i: nat, p: Pid)
    requires IsExecution(states, actions) && i < |states|
    requires p in states[i].procs && states[i].procs[p].PatchEvict?
    ensures var st := states[i].procs[p];
            st.out.Some? && Applied(st.edit, st.id, st.out.value) && BodyOk(states[i], st.out.value)
  {
    hide Core, Sound, HistoryOk, CacheOk, CommitsOk, Applied, BodyOk, OwesFor;
    ReachableParts(states, actions, i);
    assert StageOk(states[i], p, states[i].procs[p]);
  }

  /** 404 means the row was gone when it was looked for. 409 means it was there and, if the client
      submitted a version that had been committed when the request came in, had passed it. */
  lemma RefusedPatchIsRight(states: seq<State>, actions: seq<Action>, i: nat)
    requires IsExecution(states, actions) && i < |actions| && actions[i].Advance?
    requires StageOf(states[i], actions[i].p).PatchCheck?
    ensures var s, st := states[i], StageOf(states[i], actions[i].p);
            var reply := StageOf(states[i + 1], actions[i].p).reply;
            && (reply.status == 404 <==> st.id !in s.db.messages)
            && (reply.status == 409 <==> st.id in s.db.messages)
            && (reply.status == 409 && st.read ==> s.db.messages[st.id].version > st.edit.version)
  {
    var s, p := states[i], actions[i].p;
    hide Core, Sound, HistoryOk, CacheOk, CommitsOk;
    ReachableParts(states, actions, i);
    assert StageOk(s, p, s.procs[p]);
    assert Step(states[i], actions[i], states[i + 1]);
  }

  /** `read` in the stages of a PATCH means that the version was in the history at its start, and a
      client that was ever answered that version submits one that was. */
  lemma ReadVersionsAreKnown(s: State, body: MessageOut, p: Pid, edit: Edit)
    requires BodyOk(s, body) && ValidEdit(edit) && edit.version == body.version
    ensures StageOf(StartStep(s, p, UpdateMessage(body.id, edit)), p) == PatchUpdate(body.id, edit, true)
  {
    assert ValidRequest(UpdateMessage(body.id, edit));
    CleanRequestIsValid(UpdateMessage(body.id, edit));
    hide CleanRequest, ValidRequest, ValidEdit;
  }
}
