/** How a conflict comes to be out of place: a PATCH looks for a message that is not there, the
    message is created with the version the PATCH submits, and the check finds it. */
module LateCreation {
  import opened Validation
  import opened Relational
  import opened Protocol
  import opened ProtocolInvariant
  import opened Deadlock
  import opened RefusalTheorems
  import opened SlowReader

  const FIRST := Edit(None, "second", 0)

  function Creation(s: State, p: Pid, q: Pid, a: Id, d: Draw): seq<Action> {
    [Start(q, UpdateMessage(d.newId, FIRST)), Advance(q, d),
     Start(p, CreateMessage("title", "first", a)), Advance(p, d), Advance(p, d), Advance(p, d),
     Advance(q, d), Advance(q, d), Advance(q, d)]
  }

  /** In any state at rest with an author, and for any unused id: the run answers the PATCH 409,
      and in none of its states the service that serves one request at a time would. */
  lemma ConflictOutOfPlace(s: State, p: Pid, q: Pid, a: Id, d: Draw) returns (states: seq<State>)
    requires Inv(s) && AtRest(s) && p != q && a in s.db.authors && Unused(s, d)
    ensures |states| == 10 && states[0] == s && IsRun(states, Creation(s, p, q, a, d))
    ensures StageOf(states[9], q) == Done(Reply(409, Nothing))
    ensures forall l | 0 <= l < 10 :: WouldNotConflict(states[l], d.newId)
  {
    hide Inv, AtRest, Step, WouldNotConflict, Unused, Known, StorableEdit, Free, Storable;
    var id := d.newId;
    NotThere(s, d);
    RestingStage(s, q);
    FirstIsValid();
    var s1 := WriteStarts(s, q, id, FIRST);
    var s2 := FindsNone(s1, q, id, d);
    var s3, s4, s5, s6 := Posts(s, s2, p, q, a, d);
    var s7, s8, s9 := Refused(s6, q, id, d);
    states := [s, s1, s2, s3, s4, s5, s6, s7, s8, s9];
    NoConflict(s, id);
    NoConflict(s1, id);
    NoConflict(s2, id);
    NoConflict(s3, id);
    NoConflict(s4, id);
    NoConflict(s5, id);
    NoConflict(s6, id);
    NoConflict(s7, id);
    NoConflict(s8, id);
    NoConflict(s9, id);
  }

  /** Served in this state the PATCH would not be answered 409. */
  predicate WouldNotConflict(s: State, id: Id) {
    Now(s, UpdateMessage(id, FIRST)) != Reply(409, Nothing)
  }

  lemma NoConflict(s: State, id: Id)
    requires id in s.db.messages ==> s.db.messages[id].version == 0
    ensures WouldNotConflict(s, id)
  {
    FirstIsValid();
    NowConflicts(s, id, FIRST);
    hide Now, StorableEdit, ValidEdit, Storable, ValidText;
  }

  lemma Posts(s: State, s2: State, p: Pid, q: Pid, a: Id, d: Draw)
    returns (s3: State, s4: State, s5: State, s6: State)
    requires AtRest(s) && Unused(s, d) && p != q && a in s.db.authors
    requires s2.db == s.db && s2.history == s.history && q in s2.procs && s2.procs == s.procs[q := s2.procs[q]]
    requires s2.procs[q].PatchRollback?
    ensures Step(s2, Start(p, CreateMessage("title", "first", a)), s3) && Step(s3, Advance(p, d), s4)
    ensures Step(s4, Advance(p, d), s5) && Step(s5, Advance(p, d), s6)
    ensures s3.db == s4.db == s5.db == s.db && StageOf(s6, q) == s2.procs[q]
    ensures d.newId in s6.db.messages && s6.db.messages[d.newId].version == 0
  {
    hide AtRest, Step, Unused, Storable, CanInsert;
    FirstIsValid();
    RestingStage(s, p);
    s3 := PostStarts(s2, p, a);
    s4 := PostLooks(s3, p, a, d);
    CanPost(s, s4, p, q, a, d);
    s5 := PostInserts(s4, p, a, d);
    s6 := PostCommits(s5, p, d);
  }

  lemma Refused(s: State, q: Pid, id: Id, d: Draw) returns (s1: State, s2: State, s3: State)
    requires StageOf(s, q).PatchRollback? && StageOf(s, q).id == id && id in s.db.messages
    ensures Step(s, Advance(q, d), s1) && Step(s1, Advance(q, d), s2) && Step(s2, Advance(q, d), s3)
    ensures s1.db == s2.db == s3.db == s.db && StageOf(s3, q) == Done(Reply(409, Nothing))
  {
    hide Step;
    s1 := GoesOn(s, q, id, d);
    s2 := GoesOn(s1, q, id, d);
    s3 := GoesOn(s2, q, id, d);
  }

  lemma NotThere(s: State, d: Draw)
    requires Inv(s) && Unused(s, d)
    ensures d.newId !in s.db.messages && d.newId !in s.history
  {
    NotYetThere(s, d.newId);
    hide Inv;
  }

  lemma FirstIsValid()
    ensures ValidEdit(FIRST) && StorableEdit(FIRST)
    ensures ValidText("title", TITLE_MAX) && ValidText("first", CONTENT_MAX) && Storable("title") && Storable("first")
  {
  }

  lemma FindsNone(s: State, q: Pid, id: Id, d: Draw) returns (s': State)
    requires StageOf(s, q).PatchUpdate? && StageOf(s, q).id == id && StageOf(s, q).edit == FIRST
    requires id !in s.db.messages && StorableEdit(FIRST)
    ensures Step(s, Advance(q, d), s') && OnlyMoved(s, s', q, PatchRollback(id, FIRST, StageOf(s, q).read))
  {
    s' := AdvanceStep(s, q, d);
    hide StorableEdit, Free;
  }

  lemma PostStarts(s: State, p: Pid, a: Id) returns (s': State)
    requires (StageOf(s, p).Idle? || StageOf(s, p).Done?)
    requires ValidText("title", TITLE_MAX) && ValidText("first", CONTENT_MAX)
    ensures Step(s, Start(p, CreateMessage("title", "first", a)), s')
    ensures OnlyMoved(s, s', p, PostAuthor("title", "first", a))
  {
    var r := CreateMessage("title", "first", a);
    assert ValidRequest(r);
    CleanRequestIsValid(r);
    s' := StartStep(s, p, r);
    hide CleanRequest, ValidText;
  }

  lemma PostLooks(s: State, p: Pid, a: Id, d: Draw) returns (s': State)
    requires StageOf(s, p) == PostAuthor("title", "first", a) && a in s.db.authors
    ensures Step(s, Advance(p, d), s')
    ensures OnlyMoved(s, s', p, PostInsert("title", "first", AuthorView(a, s.db.authors[a])))
  {
    s' := AdvanceStep(s, p, d);
  }

  lemma CanPost(s: State, s4: State, p: Pid, q: Pid, a: Id, d: Draw)
    requires AtRest(s) && Unused(s, d) && s4.history == s.history
    requires q in s4.procs && p in s4.procs && s4.procs == s.procs[q := s4.procs[q]][p := s4.procs[p]]
    requires s4.procs[q].PatchRollback?
    ensures CanInsert(s4, p, a, d)
  {
  }

  lemma PostInserts(s: State, p: Pid, a: Id, d: Draw) returns (s': State)
    requires a in s.db.authors && StageOf(s, p) == PostInsert("title", "first", AuthorView(a, s.db.authors[a]))
    requires CanInsert(s, p, a, d) && Storable("title") && Storable("first")
    ensures Step(s, Advance(p, d), s') && OnlyMoved(s, s', p, StageOf(s', p))
    ensures var st := StageOf(s', p); st.PostCommit? && st.id == d.newId && st.row.version == 0
  {
    s' := AdvanceStep(s, p, d);
    hide CanInsert, Storable;
  }

  lemma PostCommits(s: State, p: Pid, d: Draw) returns (s': State)
    requires StageOf(s, p).PostCommit? && StageOf(s, p).row.version == 0
    ensures Step(s, Advance(p, d), s') && s'.procs == s.procs[p := StageOf(s', p)]
    ensures var id := StageOf(s, p).id; id in s'.db.messages && s'.db.messages[id].version == 0
  {
    s' := AdvanceStep(s, p, d);
    hide Extended;
  }

  /** The rollback, the eviction and the check. */
  lemma GoesOn(s: State, q: Pid, id: Id, d: Draw) returns (s': State)
    requires var st := StageOf(s, q); (st.PatchRollback? || st.PatchHeal? || st.PatchCheck?) && st.id == id
    ensures Step(s, Advance(q, d), s') && s'.db == s.db
    ensures var st, st' := StageOf(s, q), StageOf(s', q);
            && (st.PatchRollback? ==> st'.PatchHeal? && st'.id == id)
            && (st.PatchHeal? ==> st'.PatchCheck? && st'.id == id)
            && (st.PatchCheck? ==> st' == Done(CheckReply(s, id)))
  {
    s' := AdvanceStep(s, q, d);
  }
}
