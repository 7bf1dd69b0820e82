/** What a single client can count on once the traffic stops: whatever stale entry the cache was
    left with, one conflict is enough to clear it. */
module Healing {
  import opened Validation
  import opened Relational
  import opened Protocol
  import opened ProtocolInvariant
  import opened ProtocolCommits
  import opened RequestTheorems
  import opened ClientLoops

  // ---- a request served alone --------------------------------------------------------------

  /** No other process is in flight. */
  predicate QuietBut(s: State, p: Pid) {
    forall q | q in s.procs && q != p :: s.procs[q].Idle? || s.procs[q].Done?
  }

  const ANY := Draw(0, 0)

  /** Up to n more steps of one process. */
  function Solo(s: State, p: Pid, n: nat): State
    decreases n
  {
    if n == 0 || !CanAdvance(s, p, ANY) then s else Solo(AdvanceStep(s, p, ANY), p, n - 1)
  }

  /** A request from start to answer with nothing else happening; no handler takes more steps. */
  function Alone(s: State, p: Pid, r: Request): State {
    Solo(StartStep(s, p, r), p, 6)
  }

  lemma QuietIsFree(s: State, p: Pid, k: Lock)
    requires QuietBut(s, p)
    ensures Free(s, p, k)
  {
  }

  lemma SoloAdvances(s: State, p: Pid, n: nat)
    requires Inv(s) && QuietBut(s, p) && n > 0 && CanAdvance(s, p, ANY)
    ensures var s' := AdvanceStep(s, p, ANY);
            Inv(s') && QuietBut(s', p) && Solo(s, p, n) == Solo(s', p, n - 1)
  {
    hide Inv, CanAdvance, AdvanceStep;
    var s' := AdvanceStep(s, p, ANY);
    assert Step(s, Advance(p, ANY), s');
    InvStep(s, Advance(p, ANY), s');
    StillQuiet(s, Advance(p, ANY), s');
  }

  lemma StillQuiet(s: State, a: Action, s': State)
    requires Inv(s) && Step(s, a, s') && QuietBut(s, a.p)
    ensures QuietBut(s', a.p)
  {
    hide Inv, Step;
    forall q | q in s'.procs && q != a.p
      ensures s'.procs[q].Idle? || s'.procs[q].Done?
    {
      StepOthers(s, a, s', q);
    }
  }

  lemma SoloStarts(s: State, p: Pid, r: Request)
    requires Inv(s) && QuietBut(s, p) && (StageOf(s, p).Idle? || StageOf(s, p).Done?)
    ensures Inv(StartStep(s, p, r)) && QuietBut(StartStep(s, p, r), p)
  {
    hide Inv, StartStep;
    var s' := StartStep(s, p, r);
    assert Step(s, Start(p, r), s');
    InvStep(s, Start(p, r), s');
    StillQuiet(s, Start(p, r), s');
  }

  lemma SoloStops(s: State, p: Pid, n: nat)
    requires StageOf(s, p).Done?
    ensures Solo(s, p, n) == s
  {
  }

  // ---- GET ---------------------------------------------------------------------------------

  /** The process holds a 200 answer with a copy of the message at the given version. */
  predicate Holds(s: State, p: Pid, m: Id, version: nat) {
    && p in s.procs && s.procs[p].Done? && s.procs[p].reply.status == 200
    && s.procs[p].reply.payload.TheMessage?
    && s.procs[p].reply.payload.message.id == m
    && s.procs[p].reply.payload.message.version == version
  }

  predicate Answers(s: State, p: Pid, status: int) {
    p in s.procs && s.procs[p].Done? && s.procs[p].reply.status == status
  }

  /** Alone, a read answers the cached copy if there is one, and else the committed row. */
  lemma GetAlone(s: State, p: Pid, m: Id)
    requires Inv(s) && QuietBut(s, p) && (StageOf(s, p).Idle? || StageOf(s, p).Done?)
    requires m in s.db.messages
    ensures var s' := Alone(s, p, GetMessage(m));
            && Inv(s') && QuietBut(s', p) && s'.db == s.db
            && Holds(s', p, m, if m in s.cache then s.cache[m].body.version else Version(s, m))
  {
    hide Inv, QuietBut, StartStep;
    SoloStarts(s, p, GetMessage(m));
    GetStarts(s, p, m);
    GetFromProbe(StartStep(s, p, GetMessage(m)), p, m, 6);
  }

  lemma ProbeAdvances(s: State, p: Pid, m: Id)
    requires StageOf(s, p) == GetProbe(m) && (m in s.cache ==> s.cache[m].body.id == m)
    ensures CanAdvance(s, p, ANY)
    ensures var s' := AdvanceStep(s, p, ANY);
            && s'.db == s.db
            && (if m in s.cache then Holds(s', p, m, s.cache[m].body.version) else StageOf(s', p) == GetLoad(m))
  {
  }

  lemma LoadAdvances(s: State, p: Pid, m: Id)
    requires StageOf(s, p) == GetLoad(m) && m in s.db.messages && AuthorsExist(s.db)
    ensures CanAdvance(s, p, ANY)
    ensures var s' := AdvanceStep(s, p, ANY);
            && s'.db == s.db && StageOf(s', p).GetFill?
            && StageOf(s', p).body.id == m && StageOf(s', p).body.version == Version(s, m)
  {
  }

  lemma FillAdvances(s: State, p: Pid)
    requires StageOf(s, p).GetFill?
    ensures CanAdvance(s, p, ANY)
    ensures var s', body := AdvanceStep(s, p, ANY), StageOf(s, p).body;
            s'.db == s.db && Holds(s', p, body.id, body.version)
  {
  }

  lemma GetFromProbe(s: State, p: Pid, m: Id, n: nat)
    requires Inv(s) && QuietBut(s, p) && StageOf(s, p) == GetProbe(m) && n >= 3
    requires m in s.db.messages
    ensures var s' := Solo(s, p, n);
            && Inv(s') && QuietBut(s', p) && s'.db == s.db
            && Holds(s', p, m, if m in s.cache then s.cache[m].body.version else Version(s, m))
  {
    hide Inv, QuietBut, Solo, AdvanceStep, CanAdvance, AuthorsExist, StageOk;
    ClientParts(s, p, m);
    ProbeAdvances(s, p, m);
    SoloAdvances(s, p, n);
    var s1 := AdvanceStep(s, p, ANY);
    if m in s.cache {
      SoloStops(s1, p, n - 1);
    } else {
      GetFromLoad(s1, p, m, n - 1);
    }
  }

  lemma GetFromLoad(s: State, p: Pid, m: Id, n: nat)
    requires Inv(s) && QuietBut(s, p) && StageOf(s, p) == GetLoad(m) && n >= 2
    requires m in s.db.messages
    ensures var s' := Solo(s, p, n);
            && Inv(s') && QuietBut(s', p) && s'.db == s.db && Holds(s', p, m, Version(s, m))
  {
    hide Inv, QuietBut, Solo, AdvanceStep, CanAdvance, AuthorsExist, StageOk;
    ClientParts(s, p, m);
    LoadAdvances(s, p, m);
    SoloAdvances(s, p, n);
    var s1 := AdvanceStep(s, p, ANY);
    FillAdvances(s1, p);
    SoloAdvances(s1, p, n - 1);
    SoloStops(AdvanceStep(s1, p, ANY), p, n - 2);
  }

  // ---- PATCH -------------------------------------------------------------------------------

  /** Alone, a PATCH with the committed version succeeds; one with another version answers 409 (or
      404 for a message that is gone); and either way the cache entry is cleared. */
  lemma PatchAlone(s: State, p: Pid, m: Id, edit: Edit)
    requires Inv(s) && QuietBut(s, p) && (StageOf(s, p).Idle? || StageOf(s, p).Done?)
    requires ValidEdit(edit) && StorableEdit(edit) && (UpdateMatches(s, m, edit) ==> edit.version < MAX_INT4)
    ensures var s' := Alone(s, p, UpdateMessage(m, edit));
            && Inv(s') && QuietBut(s', p) && m !in s'.cache
            && (if UpdateMatches(s, m, edit) then Holds(s', p, m, edit.version + 1)
                else s'.db == s.db && Answers(s', p, if m in s.db.messages then 409 else 404))
  {
    hide Inv, QuietBut, ValidEdit, StorableEdit, StartStep;
    PatchStarts(s, p, m, edit);
    PatchFromUpdate(StartStep(s, p, UpdateMessage(m, edit)), p, m, edit, 6);
  }

  lemma PatchStarts(s: State, p: Pid, m: Id, edit: Edit)
    requires Inv(s) && QuietBut(s, p) && (StageOf(s, p).Idle? || StageOf(s, p).Done?) && ValidEdit(edit)
    ensures var s' := StartStep(s, p, UpdateMessage(m, edit));
            && Inv(s') && QuietBut(s', p) && s'.db == s.db && s'.cache == s.cache
            && StageOf(s', p).PatchUpdate? && StageOf(s', p).id == m && StageOf(s', p).edit == edit
  {
    var r := UpdateMessage(m, edit);
    assert ValidRequest(r);
    CleanRequestIsValid(r);
    SoloStarts(s, p, r);
    hide Inv, QuietBut, CleanRequest, ValidEdit, ValidRequest;
  }

  /** Alone, a PATCH whose text has U+0000 is answered 500, and row and entry stay as they are. */
  lemma UnstorablePatchAlone(s: State, p: Pid, m: Id, edit: Edit)
    requires Inv(s) && QuietBut(s, p) && (StageOf(s, p).Idle? || StageOf(s, p).Done?)
    requires ValidEdit(edit) && !StorableEdit(edit)
    ensures var s' := Alone(s, p, UpdateMessage(m, edit));
            Inv(s') && QuietBut(s', p) && s'.db == s.db && s'.cache == s.cache && Answers(s', p, 500)
  {
    hide Inv, QuietBut, ValidEdit, StorableEdit, StartStep, AdvanceStep, CanAdvance, Solo;
    PatchStarts(s, p, m, edit);
    var s0 := StartStep(s, p, UpdateMessage(m, edit));
    UnstorableAdvances(s0, p);
    SoloAdvances(s0, p, 6);
    var s1 := AdvanceStep(s0, p, ANY);
    ClosingAdvances(s1, p);
    SoloAdvances(s1, p, 5);
    SoloStops(AdvanceStep(s1, p, ANY), p, 4);
  }

  lemma UnstorableAdvances(s: State, p: Pid)
    requires StageOf(s, p).PatchUpdate? && !StorableEdit(StageOf(s, p).edit)
    ensures CanAdvance(s, p, ANY)
    ensures var s' := AdvanceStep(s, p, ANY);
            s'.db == s.db && s'.cache == s.cache && StageOf(s', p) == Closing(ServerError)
  {
    hide StorableEdit, UpdateMatches;
  }

  lemma ClosingAdvances(s: State, p: Pid)
    requires StageOf(s, p).Closing?
    ensures CanAdvance(s, p, ANY)
    ensures var s' := AdvanceStep(s, p, ANY);
            s'.db == s.db && s'.cache == s.cache && StageOf(s', p) == Done(StageOf(s, p).reply)
  {
  }

  lemma UpdateAdvances(s: State, p: Pid, m: Id, edit: Edit)
    requires QuietBut(s, p)
    requires StageOf(s, p).PatchUpdate? && StageOf(s, p).id == m && StageOf(s, p).edit == edit
    requires StorableEdit(edit) && (UpdateMatches(s, m, edit) ==> edit.version < MAX_INT4)
    ensures CanAdvance(s, p, ANY)
    ensures var s' := AdvanceStep(s, p, ANY);
            && s'.db == s.db
            && (if UpdateMatches(s, m, edit) then StageOf(s', p).PatchReload? && StageOf(s', p).edit == edit
                else StageOf(s', p).PatchRollback?)
            && StageOf(s', p).id == m
  {
    QuietIsFree(s, p, MessageRow(m));
    hide StorableEdit;
  }

  lemma ReloadAdvances(s: State, p: Pid, m: Id)
    requires StageOf(s, p).PatchReload? && StageOf(s, p).id == m
    requires AuthorsExist(s.db) && StageOk(s, p, StageOf(s, p))
    ensures CanAdvance(s, p, ANY)
    ensures var st, st' := StageOf(s, p), StageOf(AdvanceStep(s, p, ANY), p);
            st'.PatchCommit? && st'.id == m && st'.edit == st.edit
  {
    ReloadFinds(s, m, StageOf(s, p).edit, StageOf(s, p).row);
    hide Held, AuthorsExist;
  }

  lemma CommitAdvances(s: State, p: Pid)
    requires StageOf(s, p).PatchCommit?
    ensures CanAdvance(s, p, ANY)
    ensures var st, st' := StageOf(s, p), StageOf(AdvanceStep(s, p, ANY), p);
            st'.PatchEvict? && st'.id == st.id && st'.edit == st.edit
  {
    hide Extended;
  }

  lemma EvictAdvances(s: State, p: Pid)
    requires StageOf(s, p).PatchEvict? && StageOk(s, p, StageOf(s, p))
    ensures CanAdvance(s, p, ANY)
    ensures var st, s' := StageOf(s, p), AdvanceStep(s, p, ANY);
            st.id !in s'.cache && st.edit.version >= -1 && Holds(s', p, st.id, st.edit.version + 1)
  {
    hide Evicted, BodyOk;
  }

  lemma PatchFromUpdate(s: State, p: Pid, m: Id, edit: Edit, n: nat)
    requires Inv(s) && QuietBut(s, p) && n >= 4
    requires StageOf(s, p).PatchUpdate? && StageOf(s, p).id == m && StageOf(s, p).edit == edit
    requires StorableEdit(edit) && (UpdateMatches(s, m, edit) ==> edit.version < MAX_INT4)
    ensures var s' := Solo(s, p, n);
            && Inv(s') && QuietBut(s', p) && m !in s'.cache
            && (if UpdateMatches(s, m, edit) then Holds(s', p, m, edit.version + 1)
                else s'.db == s.db && Answers(s', p, if m in s.db.messages then 409 else 404))
  {
    hide Inv, QuietBut, Solo, AdvanceStep, CanAdvance;
    UpdateAdvances(s, p, m, edit);
    SoloAdvances(s, p, n);
    var s1 := AdvanceStep(s, p, ANY);
    if UpdateMatches(s, m, edit) {
      PatchFromReload(s1, p, m, edit, n - 1);
    } else {
      PatchFromRollback(s1, p, m, n - 1);
    }
  }

  lemma PatchFromReload(s: State, p: Pid, m: Id, edit: Edit, n: nat)
    requires Inv(s) && QuietBut(s, p) && n >= 3
    requires StageOf(s, p).PatchReload? && StageOf(s, p).id == m && StageOf(s, p).edit == edit
    ensures var s' := Solo(s, p, n);
            Inv(s') && QuietBut(s', p) && m !in s'.cache && edit.version >= -1 && Holds(s', p, m, edit.version + 1)
  {
    hide Inv, QuietBut, Solo, AdvanceStep, CanAdvance, StageOk, AuthorsExist;
    ClientParts(s, p, m);
    ReloadAdvances(s, p, m);
    SoloAdvances(s, p, n);
    var s1 := AdvanceStep(s, p, ANY);
    CommitAdvances(s1, p);
    SoloAdvances(s1, p, n - 1);
    var s2 := AdvanceStep(s1, p, ANY);
    ClientParts(s2, p, m);
    EvictAdvances(s2, p);
    SoloAdvances(s2, p, n - 2);
    SoloStops(AdvanceStep(s2, p, ANY), p, n - 3);
  }

  lemma HealAdvances(s: State, p: Pid)
    requires StageOf(s, p).PatchRollback? || StageOf(s, p).PatchHeal? || StageOf(s, p).PatchCheck?
    ensures CanAdvance(s, p, ANY)
    ensures var st, s' := StageOf(s, p), AdvanceStep(s, p, ANY);
            var st' := StageOf(s', p);
            && s'.db == s.db
            && (st.PatchRollback? ==> st'.PatchHeal? && st'.id == st.id)
            && (st.PatchHeal? ==> st'.PatchCheck? && st'.id == st.id && st.id !in s'.cache)
            && (st.PatchCheck? ==>
                  Answers(s', p, if st.id in s.db.messages then 409 else 404) && s'.cache == s.cache)
  {
  }

  lemma PatchFromRollback(s: State, p: Pid, m: Id, n: nat)
    requires Inv(s) && QuietBut(s, p) && n >= 3
    requires StageOf(s, p).PatchRollback? && StageOf(s, p).id == m
    ensures var s' := Solo(s, p, n);
            && Inv(s') && QuietBut(s', p) && m !in s'.cache && s'.db == s.db
            && Answers(s', p, if m in s.db.messages then 409 else 404)
  {
    hide Inv, QuietBut, Solo, AdvanceStep, CanAdvance;
    HealAdvances(s, p);
    SoloAdvances(s, p, n);
    var s1 := AdvanceStep(s, p, ANY);
    HealAdvances(s1, p);
    SoloAdvances(s1, p, n - 1);
    var s2 := AdvanceStep(s1, p, ANY);
    HealAdvances(s2, p);
    SoloAdvances(s2, p, n - 2);
    SoloStops(AdvanceStep(s2, p, ANY), p, n - 3);
  }

  // ---- DELETE ------------------------------------------------------------------------------

  lemma DropRowAdvances(s: State, p: Pid, m: Id)
    requires QuietBut(s, p) && StageOf(s, p) == DropRow(m)
    ensures CanAdvance(s, p, ANY)
    ensures var s' := AdvanceStep(s, p, ANY);
            StageOf(s', p) == DropCommit(m, m in s.db.messages) && s'.db == s.db
  {
    QuietIsFree(s, p, MessageRow(m));
  }

  lemma DropCommitAdvances(s: State, p: Pid, m: Id)
    requires StageOf(s, p) == DropCommit(m, m in s.db.messages)
    ensures CanAdvance(s, p, ANY)
    ensures var s' := AdvanceStep(s, p, ANY);
            && StageOf(s', p).DropEvict? && StageOf(s', p).id == m
            && (StageOf(s', p).deleted.Some? <==> m in s.db.messages) && m !in s'.db.messages
  {
  }

  lemma DropEvictAdvances(s: State, p: Pid, m: Id)
    requires StageOf(s, p).DropEvict? && StageOf(s, p).id == m
    ensures CanAdvance(s, p, ANY)
    ensures var s' := AdvanceStep(s, p, ANY);
            && m !in s'.cache && s'.db == s.db
            && Answers(s', p, if StageOf(s, p).deleted.Some? then 204 else 404)
  {
    hide Evicted;
  }

  /** Alone, a DELETE removes the row if there is one, and the cache entry in any case. */
  lemma DeleteAlone(s: State, p: Pid, m: Id)
    requires Inv(s) && QuietBut(s, p) && (StageOf(s, p).Idle? || StageOf(s, p).Done?)
    ensures var s' := Alone(s, p, DeleteMessage(m));
            && Inv(s') && QuietBut(s', p) && m !in s'.cache && m !in s'.db.messages
            && Answers(s', p, if m in s.db.messages then 204 else 404)
  {
    hide Inv, QuietBut, StartStep, Solo;
    SoloStarts(s, p, DeleteMessage(m));
    DropStarts(s, p, m);
    DeleteFromRow(StartStep(s, p, DeleteMessage(m)), p, m, 6);
  }

  lemma DropStarts(s: State, p: Pid, m: Id)
    ensures var s' := StartStep(s, p, DeleteMessage(m)); StageOf(s', p) == DropRow(m) && s'.db == s.db
  {
  }

  lemma DeleteFromRow(s: State, p: Pid, m: Id, n: nat)
    requires Inv(s) && QuietBut(s, p) && n >= 3 && StageOf(s, p) == DropRow(m)
    ensures var s' := Solo(s, p, n);
            && Inv(s') && QuietBut(s', p) && m !in s'.cache && m !in s'.db.messages
            && Answers(s', p, if m in s.db.messages then 204 else 404)
  {
    hide Inv, QuietBut, Solo, AdvanceStep, CanAdvance, Answers;
    DropRowAdvances(s, p, m);
    SoloAdvances(s, p, n);
    var s1 := AdvanceStep(s, p, ANY);
    DropCommitAdvances(s1, p, m);
    SoloAdvances(s1, p, n - 1);
    DeleteFromEvict(AdvanceStep(s1, p, ANY), p, m, n - 2);
  }

  lemma DeleteFromEvict(s: State, p: Pid, m: Id, n: nat)
    requires Inv(s) && QuietBut(s, p) && n >= 1
    requires StageOf(s, p).DropEvict? && StageOf(s, p).id == m && m !in s.db.messages
    ensures var s' := Solo(s, p, n);
            && Inv(s') && QuietBut(s', p) && m !in s'.cache && m !in s'.db.messages
            && Answers(s', p, if StageOf(s, p).deleted.Some? then 204 else 404)
  {
    hide Inv, QuietBut, Solo, AdvanceStep, CanAdvance;
    DropEvictAdvances(s, p, m);
    SoloAdvances(s, p, n);
    SoloStops(AdvanceStep(s, p, ANY), p, n - 1);
  }

  // ---- healing -----------------------------------------------------------------------------

  /** What a read is answered: the cached version if there is an entry, else the committed one. */
  function SeenVersion(s: State, m: Id): nat
    requires m in s.db.messages
  {
    if m in s.cache then s.cache[m].body.version else Version(s, m)
  }

  /** A client that reads, and then submits the version it read. */
  function ReadThenPatch(s: State, p: Pid, m: Id, title: Option<string>, content: string): State
    requires m in s.db.messages
  {
    Alone(Alone(s, p, GetMessage(m)), p, UpdateMessage(m, Edit(title, content, SeenVersion(s, m))))
  }

  predicate Resting(s: State, p: Pid) {
    QuietBut(s, p) && (StageOf(s, p).Idle? || StageOf(s, p).Done?)
  }

  lemma ReadIsSeen(s: State, p: Pid, m: Id)
    requires Inv(s) && Resting(s, p) && m in s.db.messages
    ensures var s1 := Alone(s, p, GetMessage(m));
            && Inv(s1) && Resting(s1, p) && s1.db == s.db
            && Holds(s1, p, m, SeenVersion(s, m)) && SeenVersion(s, m) <= MAX_INT4
  {
    hide Inv, Alone, QuietBut;
    GetAlone(s, p, m);
    HeldVersionFits(Alone(s, p, GetMessage(m)), p, m, SeenVersion(s, m));
  }

  /** One round alone succeeds exactly when what was read is the committed version; a round that
      does not succeed leaves no entry. */
  lemma RoundAlone(s: State, p: Pid, m: Id, title: Option<string>, content: string)
    requires Inv(s) && Resting(s, p) && m in s.db.messages && Version(s, m) < MAX_INT4
    requires ValidEdit(Edit(title, content, 0)) && StorableEdit(Edit(title, content, 0))
    ensures var s2 := ReadThenPatch(s, p, m, title, content);
            && Inv(s2) && Resting(s2, p) && m !in s2.cache
            && (if SeenVersion(s, m) == Version(s, m) then Holds(s2, p, m, Version(s, m) + 1)
                else Answers(s2, p, 409) && s2.db == s.db)
  {
    hide Inv, Alone, QuietBut, SeenVersion;
    ReadIsSeen(s, p, m);
    var s1 := Alone(s, p, GetMessage(m));
    assert Version(s1, m) == Version(s, m);
    PatchAlone(s1, p, m, Edit(title, content, SeenVersion(s, m)));
  }

  /** Take any state of any execution in which nobody else is in flight and the message is there
      with room for another version. A client that reads and submits the version it read is
      answered 200 with the next version; or the entry it read was stale, it is answered 409, and
      the same two requests once more are answered 200 with the next version. */
  lemma QuiescentHealing(
    states: seq<State>, actions: seq<Action>, p: Pid, m: Id,
    title: Option<string>, content: string)
    requires IsExecution(states, actions)
    requires var s := states[|states| - 1];
             Resting(s, p) && m in s.db.messages && Version(s, m) < MAX_INT4
    requires ValidEdit(Edit(title, content, 0)) && StorableEdit(Edit(title, content, 0))
    ensures var s := states[|states| - 1];
            && Holds(Alone(s, p, GetMessage(m)), p, m, SeenVersion(s, m))
            && var s2 := ReadThenPatch(s, p, m, title, content);
               if SeenVersion(s, m) == Version(s, m) then Holds(s2, p, m, Version(s, m) + 1)
               else
                 && Answers(s2, p, 409) && s2.db == s.db
                 && Holds(Alone(s2, p, GetMessage(m)), p, m, Version(s, m))
                 && Holds(ReadThenPatch(s2, p, m, title, content), p, m, Version(s, m) + 1)
  {
    var s := states[|states| - 1];
    ReachableIsOk(states, actions, |states| - 1);
    HealsFrom(s, p, m, title, content);
  }

  lemma HealsFrom(s: State, p: Pid, m: Id, title: Option<string>, content: string)
    requires Inv(s) && Resting(s, p) && m in s.db.messages && Version(s, m) < MAX_INT4
    requires ValidEdit(Edit(title, content, 0)) && StorableEdit(Edit(title, content, 0))
    ensures Holds(Alone(s, p, GetMessage(m)), p, m, SeenVersion(s, m))
    ensures var s2 := ReadThenPatch(s, p, m, title, content);
            if SeenVersion(s, m) == Version(s, m) then Holds(s2, p, m, Version(s, m) + 1)
            else
              && Answers(s2, p, 409) && s2.db == s.db
              && Holds(Alone(s2, p, GetMessage(m)), p, m, Version(s, m))
              && Holds(ReadThenPatch(s2, p, m, title, content), p, m, Version(s, m) + 1)
  {
    hide Inv, Resting, Alone, ReadThenPatch, ValidEdit;
    ReadIsSeen(s, p, m);
    RoundAlone(s, p, m, title, content);
    if SeenVersion(s, m) != Version(s, m) {
      var s2 := ReadThenPatch(s, p, m, title, content);
      assert Version(s2, m) == Version(s, m) && SeenVersion(s2, m) == Version(s2, m);
      ReadIsSeen(s2, p, m);
      RoundAlone(s2, p, m, title, content);
    }
  }

  lemma HeldVersionFits(s: State, p: Pid, m: Id, version: nat)
    requires Inv(s) && Holds(s, p, m, version)
    ensures version <= MAX_INT4
  {
    assert StageOk(s, p, s.procs[p]);
    hide LogOk, Sound, CacheOk, CommitsOk, LocksOk;
    assert Chain(s.history[m]);
  }

  /** A DELETE of a deleted message is answered 404 and removes whatever entry was left behind for
      it, so that the next read is answered 404 too; and so is a PATCH, exactly if its texts can be
      sent to the database. */
  lemma DeletedEntryIsCleared(states: seq<State>, actions: seq<Action>, p: Pid, m: Id, r: Request)
    requires IsExecution(states, actions)
    requires Resting(states[|states| - 1], p) && m !in states[|states| - 1].db.messages
    requires r == DeleteMessage(m) || (r.UpdateMessage? && r.id == m && ValidEdit(r.edit))
    ensures var s := states[|states| - 1];
            var s' := Alone(s, p, r);
            if StorableRequest(r) then
              && Answers(s', p, 404) && m !in s'.cache && m !in s'.db.messages
              && Answers(Alone(s', p, GetMessage(m)), p, 404)
            else Answers(s', p, 500) && s'.cache == s.cache && s'.db == s.db
  {
    var s := states[|states| - 1];
    ReachableIsOk(states, actions, |states| - 1);
    hide Inv, Alone, QuietBut, IsExecution, ValidEdit, StorableEdit;
    match r {
      case DeleteMessage(_) => DeleteAlone(s, p, m);
      case UpdateMessage(_, edit) =>
        if StorableEdit(edit) { PatchAlone(s, p, m, edit); } else { UnstorablePatchAlone(s, p, m, edit); }
    }
    if StorableRequest(r) {
      GetMissing(Alone(s, p, r), p, m);
    }
  }

  lemma GetMissing(s: State, p: Pid, m: Id)
    requires Inv(s) && QuietBut(s, p) && p in s.procs && s.procs[p].Done?
    requires m !in s.cache && m !in s.db.messages
    ensures Answers(Alone(s, p, GetMessage(m)), p, 404)
  {
    hide Inv, QuietBut, StartStep, Solo, AdvanceStep, CanAdvance;
    SoloStarts(s, p, GetMessage(m));
    GetStarts(s, p, m);
    var s0 := StartStep(s, p, GetMessage(m));
    ProbeMisses(s0, p, m);
    SoloAdvances(s0, p, 6);
    var s1 := AdvanceStep(s0, p, ANY);
    LoadMisses(s1, p, m);
    SoloAdvances(s1, p, 5);
    SoloStops(AdvanceStep(s1, p, ANY), p, 4);
  }

  lemma GetStarts(s: State, p: Pid, m: Id)
    ensures var s' := StartStep(s, p, GetMessage(m));
            StageOf(s', p) == GetProbe(m) && s'.db == s.db && s'.cache == s.cache
  {
  }

  lemma ProbeMisses(s: State, p: Pid, m: Id)
    requires StageOf(s, p) == GetProbe(m) && m !in s.cache
    ensures CanAdvance(s, p, ANY)
    ensures StageOf(AdvanceStep(s, p, ANY), p) == GetLoad(m) && AdvanceStep(s, p, ANY).db == s.db
  {
  }

  lemma LoadMisses(s: State, p: Pid, m: Id)
    requires StageOf(s, p) == GetLoad(m) && m !in s.db.messages
    ensures CanAdvance(s, p, ANY) && Answers(AdvanceStep(s, p, ANY), p, 404)
  {
  }
}
