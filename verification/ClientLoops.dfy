/** Clients that loop on one message: read it, then PATCH it with the version read, and so on. Where
    they can be, and that they stay in their loop whatever else happens in the service. */
module ClientLoops {
  import opened Validation
  import opened Relational
  import opened Protocol
  import opened ProtocolInvariant
  import opened ProtocolCommits

  // ---- the loop -----------------------------------------------------------------------------

  function Version(s: State, m: Id): nat
    requires m in s.db.messages
  {
    s.db.messages[m].version
  }

  /** The last answer of a client is a copy of the message that it asked to read. */
  predicate HasRead(s: State, p: Pid, m: Id) {
    && p in s.procs && s.procs[p].Done? && s.procs[p].reply.payload.TheMessage?
    && p in s.asked && s.asked[p] == GetMessage(m)
  }

  /** After a successful read a client sends a PATCH of the message; otherwise it reads. */
  predicate LoopStart(s: State, p: Pid, r: Request, m: Id) {
    if HasRead(s, p, m) then r.UpdateMessage? && r.id == m else r == GetMessage(m)
  }

  /** Nobody else updates or deletes the message. */
  predicate LeavesAlone(r: Request, m: Id) {
    !(r.UpdateMessage? && r.id == m) && !(r.DeleteMessage? && r.id == m)
  }

  /** A step in which the clients follow their loop. Anyone may go away or fail anywhere. */
  predicate FollowStep(s: State, a: Action, s': State, clients: set<Pid>, m: Id) {
    && Step(s, a, s')
    && (a.Start? ==>
          if a.p in clients then LoopStart(s, a.p, a.request, m) else LeavesAlone(a.request, m))
  }

  /** Where a client can be in its loop. */
  predicate ClientStage(s: State, p: Pid, m: Id) {
    var st := StageOf(s, p);
    || st.Idle?
    || (InGet(st) && st.id == m && p in s.asked && s.asked[p] == GetMessage(m))
    || (InPatch(st) && st.id == m && p in s.asked && s.asked[p].UpdateMessage?)
    || (st.Closing? && st.reply.payload.Nothing?)
    || (st.Done? && (HasRead(s, p, m) ==> st.reply.payload.message.id == m))
  }

  predicate OtherStage(st: Stage, m: Id) {
    !(InPatch(st) && st.id == m) && !(InDrop(st) && st.id == m)
  }

  predicate Looping(s: State, clients: set<Pid>, m: Id) {
    && m in s.db.messages
    && (forall p | p in clients :: ClientStage(s, p, m))
    && (forall p | p in s.procs && p !in clients :: OtherStage(s.procs[p], m))
  }

  lemma StepAsked(s: State, a: Action, s': State)
    requires Step(s, a, s')
    ensures s'.asked == if a.Start? then s.asked[a.p := a.request] else s.asked
  {
    hide GetStep, PatchStep, DropStep, PostStep, AuthorStep, CanAdvance, CleanRequest, Evicted;
    if a.Advance? {
      AdvanceAsked(s, a.p, a.draw);
    }
  }

  lemma AdvanceAsked(s: State, p: Pid, d: Draw)
    ensures GetStep(s, p).asked == PatchStep(s, p).asked == DropStep(s, p).asked == s.asked
    ensures PostStep(s, p, d).asked == AuthorStep(s, p, d).asked == s.asked
  {
    hide GetStep, PatchStep, DropStep, PostStep, AuthorStep;
    GetAsked(s, p);
    PatchAsked(s, p);
    DropAsked(s, p);
    PostAsked(s, p, d);
    AuthorAsked(s, p, d);
  }

  lemma GetAsked(s: State, p: Pid)
    ensures GetStep(s, p).asked == s.asked
  {
    GotoTables(p);
    hide Goto, Load;
  }

  lemma PatchAsked(s: State, p: Pid)
    ensures PatchStep(s, p).asked == s.asked
  {
    GotoTables(p);
    hide Goto, Load, UpdateMatches, StorableEdit, Extended, Evicted;
  }

  lemma DropAsked(s: State, p: Pid)
    ensures DropStep(s, p).asked == s.asked
  {
    GotoTables(p);
    hide Goto, Evicted;
  }

  lemma PostAsked(s: State, p: Pid, d: Draw)
    ensures PostStep(s, p, d).asked == s.asked
  {
    GotoTables(p);
    hide Goto, Storable, Extended;
  }

  lemma AuthorAsked(s: State, p: Pid, d: Draw)
    ensures AuthorStep(s, p, d).asked == s.asked
  {
    GotoTables(p);
    hide Goto, EmailTaken, Referenced, Storable, StorableOption, Changed;
  }

  lemma ClientParts(s: State, c: Pid, m: Id)
    requires Inv(s)
    ensures StageOk(s, c, StageOf(s, c)) && AuthorsExist(s.db)
    ensures m in s.cache ==> s.cache[m].body.id == m
  {
    assert c in s.procs ==> StageOk(s, c, s.procs[c]);
    assert m in s.cache ==> EntryOk(s, m, s.cache[m]);
  }

  lemma InvStep(s: State, a: Action, s': State)
    requires Inv(s) && Step(s, a, s')
    ensures Inv(s')
  {
    hide Inv, Step;
    StepKeeps(s, a, s');
  }

  lemma LoopingHasMessage(s: State, clients: set<Pid>, m: Id)
    requires Looping(s, clients, m)
    ensures m in s.db.messages
  {
  }

  // ---- a client stays in its loop ----------------------------------------------------------

  lemma ClientGets(s: State, p: Pid, m: Id)
    requires InGet(StageOf(s, p)) && ClientStage(s, p, m) && StageOk(s, p, StageOf(s, p))
    requires m in s.cache ==> s.cache[m].body.id == m
    ensures ClientStage(GetStep(s, p), p, m)
  {
    hide BodyOk, LoadOk;
  }

  lemma ClientPatches(s: State, p: Pid, m: Id)
    requires InPatch(StageOf(s, p)) && ClientStage(s, p, m)
    ensures ClientStage(PatchStep(s, p), p, m)
  {
    GotoLands(p);
    GotoTables(p);
    hide Goto, Load, UpdateMatches, StorableEdit, Extended, Evicted;
  }

  lemma ClientStarts(s: State, p: Pid, r: Request, m: Id)
    requires LoopStart(s, p, r, m)
    ensures ClientStage(StartStep(s, p, r), p, m)
  {
    hide Clean, CleanOptional;
  }

  lemma ClientAdvances(s: State, p: Pid, d: Draw, m: Id)
    requires Inv(s) && ClientStage(s, p, m) && CanAdvance(s, p, d)
    ensures ClientStage(AdvanceStep(s, p, d), p, m)
  {
    ClientParts(s, p, m);
    assert InGet(StageOf(s, p)) || InPatch(StageOf(s, p)) || StageOf(s, p).Closing?;
    hide Inv, StageOk, GetStep, PatchStep, ClientStage, CanAdvance;
    if InGet(StageOf(s, p)) { ClientGets(s, p, m); }
    else if InPatch(StageOf(s, p)) { ClientPatches(s, p, m); }
    else { ClientCloses(s, p, m); }
  }

  lemma ClientCloses(s: State, p: Pid, m: Id)
    requires StageOf(s, p).Closing? && ClientStage(s, p, m)
    ensures ClientStage(Goto(s, p, Done(StageOf(s, p).reply)), p, m)
  {
  }

  lemma ClientKept(s: State, a: Action, s': State, clients: set<Pid>, m: Id, c: Pid)
    requires Inv(s) && Looping(s, clients, m) && FollowStep(s, a, s', clients, m) && c in clients
    ensures ClientStage(s', c, m)
  {
    assert ClientStage(s, c, m);
    hide Inv, Looping, LoopStart, ClientStage, Step;
    if a.p != c {
      StepOthers(s, a, s', c);
      StepAsked(s, a, s');
      ClientWaits(s, s', c, m);
    } else {
      ClientMoves(s, a, s', m);
    }
  }

  lemma ClientWaits(s: State, s': State, c: Pid, m: Id)
    requires StageOf(s', c) == StageOf(s, c) && (c in s'.procs <==> c in s.procs) && SameAt(s.asked, s'.asked, c)
    requires ClientStage(s, c, m)
    ensures ClientStage(s', c, m)
  {
  }

  lemma ClientMoves(s: State, a: Action, s': State, m: Id)
    requires Inv(s) && Step(s, a, s') && ClientStage(s, a.p, m)
    requires a.Start? ==> LoopStart(s, a.p, a.request, m)
    ensures ClientStage(s', a.p, m)
  {
    hide Inv, LoopStart, AdvanceStep, StartStep, CanAdvance, ClientStage, Evicted;
    match a
    case Start(c, r) => ClientStarts(s, c, r, m);
    case Advance(c, d) => ClientAdvances(s, c, d, m);
    case Fail(c) => RestingClient(s', c, m);
    case Crash(c) => RestingClient(s', c, m);
  }

  lemma RestingClient(s: State, c: Pid, m: Id)
    requires StageOf(s, c).Idle? || StageOf(s, c) == Closing(ServerError)
    ensures ClientStage(s, c, m)
  {
  }

  // ---- the others leave the message alone --------------------------------------------------

  lemma OtherAdvances(s: State, p: Pid, d: Draw, m: Id)
    requires OtherStage(StageOf(s, p), m) && CanAdvance(s, p, d)
    ensures OtherStage(StageOf(AdvanceStep(s, p, d), p), m)
  {
    hide GetStep, PatchStep, DropStep, PostStep, AuthorStep, CanAdvance, OtherStage;
    assert StageOf(s, p).Closing? ==> StageOf(AdvanceStep(s, p, d), p).Done?;
    OtherGets(s, p, m);
    OtherPatches(s, p, m);
    OtherDrops(s, p, m);
    OtherPosts(s, p, d, m);
    OtherAuthors(s, p, d, m);
    NeitherIsOther(StageOf(AdvanceStep(s, p, d), p), m);
  }

  lemma NeitherIsOther(st: Stage, m: Id)
    ensures !InPatch(st) && !InDrop(st) ==> OtherStage(st, m)
  {
  }

  lemma OtherGets(s: State, p: Pid, m: Id)
    ensures InGet(StageOf(s, p)) ==> OtherStage(StageOf(GetStep(s, p), p), m)
  {
    GotoLands(p);
    hide Goto, Load;
  }

  lemma OtherPatches(s: State, p: Pid, m: Id)
    requires OtherStage(StageOf(s, p), m)
    ensures InPatch(StageOf(s, p)) ==> OtherStage(StageOf(PatchStep(s, p), p), m)
  {
    GotoLands(p);
    hide Goto, Load, UpdateMatches, StorableEdit, Extended, Evicted;
  }

  lemma OtherDrops(s: State, p: Pid, m: Id)
    requires OtherStage(StageOf(s, p), m)
    ensures InDrop(StageOf(s, p)) ==> OtherStage(StageOf(DropStep(s, p), p), m)
  {
    GotoLands(p);
    hide Goto, Evicted;
  }

  lemma OtherPosts(s: State, p: Pid, d: Draw, m: Id)
    ensures InPost(StageOf(s, p)) ==> OtherStage(StageOf(PostStep(s, p, d), p), m)
  {
    GotoLands(p);
    hide Goto, Extended, Storable;
  }

  lemma OtherAuthors(s: State, p: Pid, d: Draw, m: Id)
    ensures InAuthors(StageOf(s, p)) ==> OtherStage(StageOf(AuthorStep(s, p, d), p), m)
  {
    GotoLands(p);
    hide Goto, EmailTaken, Referenced, Changed, WithAuthor, Storable, StorableOption;
  }

  lemma OtherStarts(s: State, p: Pid, r: Request, m: Id)
    requires LeavesAlone(r, m)
    ensures OtherStage(StageOf(StartStep(s, p, r), p), m)
  {
    hide Clean, CleanOptional, CleanOptionalEmail, CleanEmail;
  }

  lemma NobodyDrops(s: State, p: Pid, clients: set<Pid>, m: Id)
    requires Looping(s, clients, m)
    ensures m in s.db.messages && !(InDrop(StageOf(s, p)) && StageOf(s, p).id == m)
  {
    assert p in clients ==> ClientStage(s, p, m);
  }

  lemma AdvanceKeepsMessage(s: State, p: Pid, d: Draw, m: Id)
    requires m in s.db.messages && !(InDrop(StageOf(s, p)) && StageOf(s, p).id == m)
    ensures m in AdvanceStep(s, p, d).db.messages
  {
    hide GetStep, PatchStep, DropStep, PostStep, AuthorStep;
    GetIsQuiet(s, p);
    PatchKeepsMessage(s, p, m);
    DropKeepsMessage(s, p, m);
    PostKeepsMessage(s, p, d, m);
    AuthorsKeepMessages(s, p, d);
  }

  lemma PatchKeepsMessage(s: State, p: Pid, m: Id)
    requires m in s.db.messages
    ensures m in PatchStep(s, p).db.messages
  {
    GotoTables(p);
    hide Goto, Load, UpdateMatches, StorableEdit, Extended, Evicted;
  }

  lemma DropKeepsMessage(s: State, p: Pid, m: Id)
    requires m in s.db.messages && !(InDrop(StageOf(s, p)) && StageOf(s, p).id == m)
    ensures InDrop(StageOf(s, p)) ==> m in DropStep(s, p).db.messages
  {
    GotoTables(p);
    hide Goto, Evicted;
  }

  lemma PostKeepsMessage(s: State, p: Pid, d: Draw, m: Id)
    requires m in s.db.messages
    ensures m in PostStep(s, p, d).db.messages
  {
    GotoTables(p);
    hide Goto, Extended, Storable;
  }

  // ---- everybody ---------------------------------------------------------------------------

  /** Whatever the step, the message stays, the clients stay in their loop and the others leave the
      message alone. */
  lemma FollowKeeps(s: State, a: Action, s': State, clients: set<Pid>, m: Id)
    requires Inv(s) && FollowStep(s, a, s', clients, m) && Looping(s, clients, m)
    ensures Looping(s', clients, m)
  {
    hide Inv, ClientStage, OtherStage, Step;
    MessageStays(s, a, s', clients, m);
    forall p | p in clients
      ensures ClientStage(s', p, m)
    {
      ClientKept(s, a, s', clients, m, p);
    }
    forall p | p in s'.procs && p !in clients
      ensures OtherStage(s'.procs[p], m)
    {
      OtherKept(s, a, s', clients, m, p);
    }
  }

  lemma MessageStays(s: State, a: Action, s': State, clients: set<Pid>, m: Id)
    requires Looping(s, clients, m) && Step(s, a, s')
    ensures m in s'.db.messages
  {
    NobodyDrops(s, a.p, clients, m);
    hide Looping, CanAdvance, CleanRequest, AdvanceStep;
    if a.Advance? {
      AdvanceKeepsMessage(s, a.p, a.draw, m);
    }
  }

  lemma OtherKept(s: State, a: Action, s': State, clients: set<Pid>, m: Id, p: Pid)
    requires Inv(s) && FollowStep(s, a, s', clients, m) && Looping(s, clients, m)
    requires p in s'.procs && p !in clients
    ensures OtherStage(s'.procs[p], m)
  {
    OtherNow(s, clients, m, p);
    hide Inv, Looping, OtherStage, Step, LoopStart;
    if a.p != p {
      StepOthers(s, a, s', p);
    } else {
      OtherMoves(s, a, s', m);
    }
  }

  lemma OtherNow(s: State, clients: set<Pid>, m: Id, p: Pid)
    requires Looping(s, clients, m) && p !in clients
    ensures OtherStage(StageOf(s, p), m)
  {
  }

  lemma OtherMoves(s: State, a: Action, s': State, m: Id)
    requires Step(s, a, s') && OtherStage(StageOf(s, a.p), m)
    requires a.Start? ==> LeavesAlone(a.request, m)
    ensures OtherStage(StageOf(s', a.p), m)
  {
    hide OtherStage, CanAdvance, AdvanceStep, StartStep;
    match a
    case Start(p, r) => OtherStarts(s, p, r, m);
    case Advance(p, d) => OtherAdvances(s, p, d, m);
    case Fail(p) => NeitherIsOther(Closing(ServerError), m);
    case Crash(p) => NeitherIsOther(Idle, m);
  }
}
