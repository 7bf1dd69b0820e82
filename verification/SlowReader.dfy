/** How a stale entry comes about: a reader loads a row, the row is changed and its entry evicted,
    and then the reader puts what it has loaded in the cache. */
module SlowReader {
  import opened Validation
  import opened Relational
  import opened Protocol
  import opened ProtocolInvariant
  import opened ProtocolTheorems
  import opened Deadlock

  /** A PATCH of the version that is there. */
  function EditOf(s: State, m: Id, content: string): Edit
    requires m in s.db.messages
  {
    Edit(None, content, s.db.messages[m].version)
  }

  /** The reader misses and loads, the writer goes from start to answer, the reader fills. */
  function Race(s: State, p: Pid, q: Pid, m: Id, content: string, d: Draw): seq<Action>
    requires m in s.db.messages
  {
    [Start(p, GetMessage(m)), Advance(p, d), Advance(p, d),
     Start(q, UpdateMessage(m, EditOf(s, m, content))), Advance(q, d), Advance(q, d), Advance(q, d), Advance(q, d),
     Advance(p, d)]
  }

  /** The entry has an old version, and the row the next one. */
  predicate IsStale(s: State, m: Id, version: int) {
    && m in s.cache && s.cache[m].body.version == version && !Agrees(s, s.cache[m].body)
    && m in s.db.messages && s.db.messages[m].version == version + 1
  }

  predicate Succeeded(s: State, q: Pid) {
    StageOf(s, q).Done? && StageOf(s, q).reply.status == 200
  }

  /** In any state at rest, for any message that has no entry and room for another version, and any
      content that can be stored: the race is a run, the writer is answered 200, and it leaves an
      entry one version behind the row. */
  lemma RaceLeavesStale(s: State, p: Pid, q: Pid, m: Id, content: string, d: Draw) returns (states: seq<State>)
    requires Inv(s) && AtRest(s) && p != q && m in s.db.messages && m !in s.cache
    requires StoredText(content, CONTENT_MAX) && s.db.messages[m].version < MAX_INT4
    ensures |states| == 10 && states[0] == s && IsRun(states, Race(s, p, q, m, content, d))
    ensures IsStale(states[9], m, s.db.messages[m].version) && Succeeded(states[9], q)
  {
    hide Inv, AtRest, Step, Agrees, StoredText, StartStep, Load, EditOf;
    RestingParts(s, m, content);
    RestingStage(s, p);
    RestingStage(s, q);
    var s1, s2, s3 := ReaderLoads(s, p, m, d);
    var body := Load(s.db, m).message;
    LockFreeBut(s, s3, p, q, m);
    EditFits(s, m, content);
    EditMatches(s, s3, m, content);
    var s4, s5, s6, s7, s8 := WriterWrites(s3, q, m, EditOf(s, m, content), d);
    var s9 := ReaderFills(s8, p, m, body, d);
    states := [s, s1, s2, s3, s4, s5, s6, s7, s8, s9];
    NextRow(s, m, content);
    RowAhead(s9, body);
  }

  lemma RestingParts(s: State, m: Id, content: string)
    requires Inv(s) && m in s.db.messages
    ensures Load(s.db, m).Found? && Load(s.db, m).message.id == m
    ensures Load(s.db, m).message.version == s.db.messages[m].version >= 0
  {
    assert Chain(s.history[m]);
    hide SeenOk, CacheOk, CommitsOk, StagesOk, LocksOk, LogOk, UniqueEmails, ValidAuthor, ValidMessage;
  }

  lemma EditFits(s: State, m: Id, content: string)
    requires m in s.db.messages && 0 <= s.db.messages[m].version <= MAX_INT4 && StoredText(content, CONTENT_MAX)
    ensures ValidEdit(EditOf(s, m, content)) && StorableEdit(EditOf(s, m, content))
  {
    hide Storable, ValidText;
  }

  /** Nothing but the stage of the process has changed. */
  predicate OnlyMoved(s: State, s': State, p: Pid, st: Stage) {
    s'.procs == s.procs[p := st] && s'.db == s.db && s'.history == s.history && s'.cache == s.cache
  }

  // ---- the reader --------------------------------------------------------------------------

  lemma ReaderLoads(s: State, p: Pid, m: Id, d: Draw) returns (s1: State, s2: State, s3: State)
    requires StageOf(s, p).Idle? || StageOf(s, p).Done?
    requires m !in s.cache && Load(s.db, m).Found?
    ensures Step(s, Start(p, GetMessage(m)), s1) && Step(s1, Advance(p, d), s2) && Step(s2, Advance(p, d), s3)
    ensures OnlyMoved(s, s3, p, GetFill(m, Load(s.db, m).message, s2.clock))
  {
    hide Step, Load;
    s1 := ReadStarts(s, p, m);
    s2 := ReadMisses(s1, p, m, d);
    s3 := ReadLoads(s2, p, m, d);
  }

  lemma ReadStarts(s: State, p: Pid, m: Id) returns (s': State)
    requires StageOf(s, p).Idle? || StageOf(s, p).Done?
    ensures Step(s, Start(p, GetMessage(m)), s') && OnlyMoved(s, s', p, GetProbe(m))
  {
    s' := StartStep(s, p, GetMessage(m));
  }

  lemma ReadMisses(s: State, p: Pid, m: Id, d: Draw) returns (s': State)
    requires StageOf(s, p) == GetProbe(m) && m !in s.cache
    ensures Step(s, Advance(p, d), s') && OnlyMoved(s, s', p, GetLoad(m))
  {
    s' := AdvanceStep(s, p, d);
  }

  lemma ReadLoads(s: State, p: Pid, m: Id, d: Draw) returns (s': State)
    requires StageOf(s, p) == GetLoad(m) && Load(s.db, m).Found?
    ensures Step(s, Advance(p, d), s') && OnlyMoved(s, s', p, GetFill(m, Load(s.db, m).message, s.clock))
  {
    s' := AdvanceStep(s, p, d);
    hide Load;
  }

  lemma ReaderFills(s: State, p: Pid, m: Id, body: MessageOut, d: Draw) returns (s': State)
    requires StageOf(s, p).GetFill? && StageOf(s, p).id == m && StageOf(s, p).body == body
    ensures Step(s, Advance(p, d), s') && s'.db == s.db && m in s'.cache && s'.cache[m].body == body
    ensures s'.procs == s.procs[p := Done(Reply(200, TheMessage(body)))]
  {
    s' := AdvanceStep(s, p, d);
  }

  // ---- the writer --------------------------------------------------------------------------

  lemma WriterWrites(s: State, q: Pid, m: Id, edit: Edit, d: Draw)
    returns (s1: State, s2: State, s3: State, s4: State, s5: State)
    requires (StageOf(s, q).Idle? || StageOf(s, q).Done?) && Free(s, q, MessageRow(m))
    requires UpdateMatches(s, m, edit) && edit.version < MAX_INT4 && ValidEdit(edit) && StorableEdit(edit)
    requires Load(s.db, m).Found?
    ensures Step(s, Start(q, UpdateMessage(m, edit)), s1) && Step(s1, Advance(q, d), s2)
    ensures Step(s2, Advance(q, d), s3) && Step(s3, Advance(q, d), s4) && Step(s4, Advance(q, d), s5)
    ensures s5.procs.Keys == s.procs.Keys + {q} && forall r | r in s.procs && r != q :: s5.procs[r] == s.procs[r]
    ensures StageOf(s5, q).Done? && StageOf(s5, q).reply.status == 200
    ensures s5.db.messages == s.db.messages[m := Edited(s.db.messages[m], edit)]
  {
    hide Step, Load, StorableEdit, ValidEdit, Free;
    s1 := WriteStarts(s, q, m, edit);
    StillFree(s, s1, q, m);
    s2 := WriteUpdates(s1, q, m, edit, d);
    ReloadsWell(s2, m, edit);
    s3 := WriteReloads(s2, q, m, edit, d);
    s4 := WriteCommits(s3, q, m, d);
    s5 := WriteEvicts(s4, q, m, d);
  }

  lemma WriteStarts(s: State, q: Pid, m: Id, edit: Edit) returns (s': State)
    requires (StageOf(s, q).Idle? || StageOf(s, q).Done?) && ValidEdit(edit)
    ensures Step(s, Start(q, UpdateMessage(m, edit)), s')
    ensures OnlyMoved(s, s', q, PatchUpdate(m, edit, Known(s, m, edit.version)))
  {
    var r := UpdateMessage(m, edit);
    assert ValidRequest(r);
    CleanRequestIsValid(r);
    s' := StartStep(s, q, r);
    hide CleanRequest, ValidEdit, Known;
  }

  lemma StillFree(s: State, s': State, q: Pid, m: Id)
    requires Free(s, q, MessageRow(m)) && exists st :: OnlyMoved(s, s', q, st)
    ensures Free(s', q, MessageRow(m))
  {
    hide Exclusive;
  }

  lemma WriteUpdates(s: State, q: Pid, m: Id, edit: Edit, d: Draw) returns (s': State)
    requires StageOf(s, q).PatchUpdate? && StageOf(s, q).id == m && StageOf(s, q).edit == edit
    requires Free(s, q, MessageRow(m)) && UpdateMatches(s, m, edit) && edit.version < MAX_INT4 && StorableEdit(edit)
    ensures Step(s, Advance(q, d), s') && OnlyMoved(s, s', q, PatchReload(m, edit, Edited(s.db.messages[m], edit)))
  {
    s' := AdvanceStep(s, q, d);
    hide StorableEdit, Free, Edited;
  }

  lemma ReloadsWell(s: State, m: Id, edit: Edit)
    requires m in s.db.messages && Load(s.db, m).Found?
    ensures Load(s.db.(messages := s.db.messages[m := Edited(s.db.messages[m], edit)]), m).Found?
  {
  }

  lemma WriteReloads(s: State, q: Pid, m: Id, edit: Edit, d: Draw) returns (s': State)
    requires m in s.db.messages && StageOf(s, q) == PatchReload(m, edit, Edited(s.db.messages[m], edit))
    requires Load(s.db.(messages := s.db.messages[m := Edited(s.db.messages[m], edit)]), m).Found?
    ensures Step(s, Advance(q, d), s') && s'.db == s.db && s'.procs == s.procs[q := StageOf(s', q)]
    ensures var st := StageOf(s', q);
            st.PatchCommit? && st.id == m && st.row == Edited(s.db.messages[m], edit) && st.out.Some?
  {
    s' := AdvanceStep(s, q, d);
    hide Load, Edited;
  }

  lemma WriteCommits(s: State, q: Pid, m: Id, d: Draw) returns (s': State)
    requires StageOf(s, q).PatchCommit? && StageOf(s, q).id == m && StageOf(s, q).out.Some?
    ensures Step(s, Advance(q, d), s') && s'.procs == s.procs[q := StageOf(s', q)]
    ensures s'.db == s.db.(messages := s.db.messages[m := StageOf(s, q).row])
    ensures StageOf(s', q).PatchEvict? && StageOf(s', q).id == m && StageOf(s', q).out.Some?
  {
    s' := AdvanceStep(s, q, d);
    hide Extended;
  }

  lemma WriteEvicts(s: State, q: Pid, m: Id, d: Draw) returns (s': State)
    requires StageOf(s, q).PatchEvict? && StageOf(s, q).id == m && StageOf(s, q).out.Some?
    ensures Step(s, Advance(q, d), s') && s'.procs == s.procs[q := StageOf(s', q)] && s'.db == s.db
    ensures StageOf(s', q).Done? && StageOf(s', q).reply.status == 200
  {
    s' := AdvanceStep(s, q, d);
    hide Evicted;
  }

  // ---- what they leave ---------------------------------------------------------------------

  lemma LockFreeBut(s: State, s3: State, p: Pid, q: Pid, m: Id)
    requires AtRest(s) && p in s3.procs && s3.procs == s.procs[p := s3.procs[p]] && s3.procs[p].GetFill?
    ensures Free(s3, q, MessageRow(m))
  {
  }

  lemma EditMatches(s: State, s3: State, m: Id, content: string)
    requires m in s.db.messages && s3.db == s.db
    ensures UpdateMatches(s3, m, EditOf(s, m, content)) && EditOf(s, m, content).version == s.db.messages[m].version
  {
  }

  lemma NextRow(s: State, m: Id, content: string)
    requires m in s.db.messages
    ensures Edited(s.db.messages[m], EditOf(s, m, content)).version == s.db.messages[m].version + 1
  {
  }

  lemma RowAhead(s: State, body: MessageOut)
    requires body.id in s.db.messages && s.db.messages[body.id].version != body.version
    ensures !Agrees(s, body)
  {
  }
}
