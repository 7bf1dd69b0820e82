/** Any number of replicas starting over one database, while clients are served by those that are
    up: the migration under a session-level advisory lock, then the seeding of the welcome message
    under a transaction-level one. Every statement is one step, and any step may fail or any
    replica die instead. */
module Startup {
  import opened Validation
  import opened Relational
  import opened Sets

  type Pid = nat

  const MIGRATION_KEY := 7_265_490_000
  const SEED_KEY := 7_265_490_001

  const SYSTEM_EMAIL := "system@message-service.local"
  const WELCOME_TITLE := "Welcome to the Kubernetes REST API"
  const WELCOME_CONTENT := "A sample message backed by FastAPI " + "and PostgreSQL on a kind cluster."

  /** A row written by an open transaction. */
  datatype Added<T> = Added(id: Id, row: T)

  datatype Stage =
    | Down
    | MigrateWait
    | MigrateRead
    | MigrateApply(pending: bool)
    | MigrateUnlock(ok: bool)
    | SeedWait
    | SeedCount
    | SeedAuthor
    | SeedSelect(added: Option<Added<Author>>)
    | SeedInsert(added: Option<Added<Author>>, author: Id)
    | SeedCommit(added: Option<Added<Author>>, welcome: Option<Added<Message>>)
    | Up

  /** The advisory lock a stage holds. */
  function Key(st: Stage): Option<int> {
    match st
    case MigrateRead => Some(MIGRATION_KEY)
    case MigrateApply(_) => Some(MIGRATION_KEY)
    case MigrateUnlock(_) => Some(MIGRATION_KEY)
    case SeedCount => Some(SEED_KEY)
    case SeedAuthor => Some(SEED_KEY)
    case SeedSelect(_) => Some(SEED_KEY)
    case SeedInsert(_, _) => Some(SEED_KEY)
    case SeedCommit(_, _) => Some(SEED_KEY)
    case _ => None
  }

  datatype State = State(
    db: Tables,
    schema: bool,
    locks: map<int, Pid>,
    replicas: map<Pid, Stage>,
    // History: how often the schema was created, the welcome messages ever committed, and whether
    // a seeding transaction ever committed.
    upgrades: nat,
    welcomes: set<Id>,
    seeded: bool)

  predicate Init(s: State) {
    s == State(Tables(map[], map[]), false, map[], map[], 0, {}, false)
  }

  function StageOf(s: State, p: Pid): Stage {
    if p in s.replicas then s.replicas[p] else Down
  }

  // ---- steps -------------------------------------------------------------------------------

  function Goto(s: State, p: Pid, st: Stage): State {
    s.(replicas := s.replicas[p := st])
  }

  function Acquire(s: State, p: Pid, key: int, st: Stage): State {
    Goto(s.(locks := s.locks[key := p]), p, st)
  }

  /** Leaving the section a stage is in, by whatever way, releases its lock. */
  function Leave(s: State, p: Pid, st: Stage): State {
    var key := Key(StageOf(s, p));
    Goto(if key.Some? then s.(locks := s.locks - {key.value}) else s, p, st)
  }

  /** The author the seeder finds under the system email: its own uncommitted row, or a committed
      one. */
  ghost predicate IsSystemAuthor(t: Tables, added: Option<Added<Author>>, a: Id) {
    || (added.Some? && a == added.value.id && added.value.row.email == SYSTEM_EMAIL)
    || (a in t.authors && t.authors[a].email == SYSTEM_EMAIL)
  }

  ghost function SelectStep(s: State, p: Pid, added: Option<Added<Author>>): State {
    if exists a :: IsSystemAuthor(s.db, added, a) then
      var a :| IsSystemAuthor(s.db, added, a);
      Goto(s, p, SeedInsert(added, a))
    else Leave(s, p, Down)
  }

  predicate Referable(t: Tables, added: Option<Added<Author>>, a: Id) {
    a in t.authors || (added.Some? && a == added.value.id)
  }

  function InsertStep(s: State, p: Pid, added: Option<Added<Author>>, author: Id, d: Draw): State {
    if !Referable(s.db, added, author) then Leave(s, p, Down)
    else
      Goto(s, p, SeedCommit(added, Some(Added(d.newId,
        Message(WELCOME_TITLE, WELCOME_CONTENT, author, d.now, 0)))))
  }

  function Seeded(t: Tables, added: Option<Added<Author>>, welcome: Option<Added<Message>>): Tables {
    Tables(
      if added.Some? then t.authors[added.value.id := added.value.row] else t.authors,
      if welcome.Some? then t.messages[welcome.value.id := welcome.value.row] else t.messages)
  }

  function CommitStep(s: State, p: Pid, added: Option<Added<Author>>, welcome: Option<Added<Message>>): State {
    Leave(
      s.(db := Seeded(s.db, added, welcome),
         welcomes := if welcome.Some? then s.welcomes + {welcome.value.id} else s.welcomes,
         seeded := true),
      p, Up)
  }

  function MigrateStep(s: State, p: Pid): State {
    match StageOf(s, p)
    case MigrateWait => Acquire(s, p, MIGRATION_KEY, MigrateRead)
    case MigrateRead => Goto(s, p, MigrateApply(!s.schema))
    case MigrateApply(pending) =>
      Goto(if pending then s.(schema := true, upgrades := s.upgrades + 1) else s, p, MigrateUnlock(true))
    case MigrateUnlock(ok) => Leave(s, p, if ok then SeedWait else Down)
    case _ => s
  }

  ghost function SeedStep(s: State, p: Pid, d: Draw): State {
    match StageOf(s, p)
    case SeedWait => Acquire(s, p, SEED_KEY, SeedCount)
    case SeedCount =>
      Goto(s, p, if s.db.messages != map[] then SeedCommit(None, None) else SeedAuthor)
    case SeedAuthor =>
      Goto(s, p, SeedSelect(
        if EmailTaken(s.db.authors, SYSTEM_EMAIL) then None
        else Some(Added(d.newId, Author("system", SYSTEM_EMAIL, d.now)))))
    case SeedSelect(added) => SelectStep(s, p, added)
    case SeedInsert(added, author) => InsertStep(s, p, added, author, d)
    case SeedCommit(added, welcome) => CommitStep(s, p, added, welcome)
    case _ => s
  }

  predicate Migrating(st: Stage) {
    st.MigrateWait? || st.MigrateRead? || st.MigrateApply? || st.MigrateUnlock?
  }

  predicate Seeding(st: Stage) {
    || st.SeedWait? || st.SeedCount? || st.SeedAuthor? || st.SeedSelect? || st.SeedInsert?
    || st.SeedCommit?
  }

  /** The current statement fails. Inside the migration the `finally` still unlocks; a failed
      seeding transaction rolls back, which releases its lock. */
  function FailStep(s: State, p: Pid): State {
    var st := StageOf(s, p);
    if st.MigrateRead? || st.MigrateApply? then Goto(s, p, MigrateUnlock(false)) else Leave(s, p, Down)
  }

  /** What a client's write waits for while a seeding transaction is open: its system author's
      email, and the key of the author its message refers to. */
  predicate Undisturbed(st: Stage, r: Request, d: Draw) {
    && (st.SeedSelect? || st.SeedInsert? || st.SeedCommit? ==>
          st.added.Some? ==>
            && (r.CreateAuthor? ==> r.email != SYSTEM_EMAIL && d.newId != st.added.value.id)
            && (r.UpdateAuthor? ==> r.newEmail != Some(SYSTEM_EMAIL)))
    && (st.SeedCommit? ==>
          st.welcome.Some? ==>
            && (r.DeleteAuthor? ==> r.id != st.welcome.value.row.authorId)
            && (r.CreateMessage? ==> d.newId != st.welcome.value.id))
  }

  predicate ClientMay(s: State, r: Request, d: Draw) {
    && s.schema && ValidRequest(r) && Fresh(s.db, r, d)
    && (r.CreateMessage? ==> d.newId !in s.welcomes)
    && forall p | p in s.replicas :: Undisturbed(s.replicas[p], r, d)
  }

  predicate CanAdvance(s: State, p: Pid, d: Draw) {
    match StageOf(s, p)
    case Down => false
    case Up => false
    case MigrateWait => MIGRATION_KEY !in s.locks
    case SeedWait => SEED_KEY !in s.locks
    case SeedAuthor => d.newId !in s.db.authors
    case SeedInsert(_, _) => d.newId !in s.db.messages && d.newId !in s.welcomes
    case _ => true
  }

  datatype Action =
    | Start(p: Pid)
    | Advance(p: Pid, draw: Draw)
    | Fail(p: Pid)
    | Crash(p: Pid)
    | Client(request: Request, draw: Draw)

  predicate Enabled(s: State, a: Action) {
    match a
    case Start(p) => StageOf(s, p).Down?
    case Advance(p, d) => CanAdvance(s, p, d)
    case Fail(p) => Migrating(StageOf(s, p)) || Seeding(StageOf(s, p))
    case Crash(p) => p in s.replicas
    case Client(r, d) => ClientMay(s, r, d)
  }

  ghost function Apply(s: State, a: Action): State {
    match a
    case Start(p) => Goto(s, p, MigrateWait)
    case Advance(p, d) => if Migrating(StageOf(s, p)) then MigrateStep(s, p) else SeedStep(s, p, d)
    case Fail(p) => FailStep(s, p)
    case Crash(p) => Leave(s, p, Down)
    case Client(r, d) => s.(db := Exec(s.db, r, d).tables)
  }

  ghost predicate Step(s: State, a: Action, s': State) {
    Enabled(s, a) && s' == Apply(s, a)
  }

  ghost predicate IsExecution(states: seq<State>, actions: seq<Action>) {
    && |states| == |actions| + 1 && Init(states[0])
    && forall i | 0 <= i < |actions| :: Step(states[i], actions[i], states[i + 1])
  }

  // ---- the locks ---------------------------------------------------------------------------

  /** A lock is held exactly by the replica that is in its section. */
  predicate LocksOk(s: State) {
    && (forall p | p in s.replicas && Key(s.replicas[p]).Some? ::
          var k := Key(s.replicas[p]).value; k in s.locks && s.locks[k] == p)
    && (forall k | k in s.locks :: Key(StageOf(s, s.locks[k])) == Some(k))
  }

  /** How a step of a replica changes the locks and the stages. */
  ghost predicate Moves(s: State, p: Pid, s': State) {
    var before, after := Key(StageOf(s, p)), Key(StageOf(s', p));
    && (forall q | q != p ::
          (q in s'.replicas <==> q in s.replicas) && (q in s.replicas ==> s'.replicas[q] == s.replicas[q]))
    && (|| (after == before && s'.locks == s.locks)
        || (before.None? && after.Some? && after.value !in s.locks && s'.locks == s.locks[after.value := p])
        || (before.Some? && after.None? && s'.locks == s.locks - {before.value}))
  }

  lemma MovesKeeps(s: State, p: Pid, s': State)
    requires LocksOk(s) && Moves(s, p, s')
    ensures LocksOk(s')
  {
  }

  lemma LeaveMoves(s: State, p: Pid, st: Stage)
    requires Key(st).None?
    ensures Moves(s, p, Leave(s, p, st))
  {
  }

  lemma GotoMoves(s: State, p: Pid, st: Stage)
    requires Key(st) == Key(StageOf(s, p))
    ensures Moves(s, p, Goto(s, p, st)) && Moves(s, p, s)
  {
  }

  lemma AcquireMoves(s: State, p: Pid, key: int, st: Stage)
    requires Key(StageOf(s, p)).None? && Key(st) == Some(key) && key !in s.locks
    ensures Moves(s, p, Acquire(s, p, key, st))
  {
  }

  lemma MigrateMoves(s: State, p: Pid)
    requires StageOf(s, p).MigrateWait? ==> MIGRATION_KEY !in s.locks
    ensures Moves(s, p, MigrateStep(s, p))
  {
    hide Moves, Leave, Goto, Acquire;
    match StageOf(s, p)
    case MigrateWait => AcquireMoves(s, p, MIGRATION_KEY, MigrateRead);
    case MigrateRead => GotoMoves(s, p, MigrateApply(!s.schema));
    case MigrateApply(pending) => ApplyMoves(s, p, pending);
    case MigrateUnlock(ok) => LeaveMoves(s, p, if ok then SeedWait else Down);
    case _ => GotoMoves(s, p, StageOf(s, p));
  }

  lemma ApplyMoves(s: State, p: Pid, pending: bool)
    requires StageOf(s, p) == MigrateApply(pending)
    ensures Moves(s, p, MigrateStep(s, p))
  {
  }

  lemma SelectMoves(s: State, p: Pid, added: Option<Added<Author>>)
    requires StageOf(s, p) == SeedSelect(added)
    ensures Moves(s, p, SelectStep(s, p, added))
  {
    LeaveMoves(s, p, Down);
    forall a
      ensures Moves(s, p, Goto(s, p, SeedInsert(added, a)))
    {
      GotoMoves(s, p, SeedInsert(added, a));
    }
    hide Moves, Leave, Goto;
  }

  lemma InsertMoves(s: State, p: Pid, added: Option<Added<Author>>, author: Id, d: Draw)
    requires StageOf(s, p) == SeedInsert(added, author)
    ensures Moves(s, p, InsertStep(s, p, added, author, d))
  {
    LeaveMoves(s, p, Down);
    GotoMoves(s, p, SeedCommit(added, Some(Added(d.newId,
      Message(WELCOME_TITLE, WELCOME_CONTENT, author, d.now, 0)))));
    hide Moves, Leave, Goto, Referable;
  }

  lemma SeedMoves(s: State, p: Pid, d: Draw)
    requires StageOf(s, p).SeedWait? ==> SEED_KEY !in s.locks
    ensures Moves(s, p, SeedStep(s, p, d))
  {
    hide Moves, Leave, Goto, Acquire, SelectStep, InsertStep, CommitStep, EmailTaken;
    match StageOf(s, p)
    case SeedWait => AcquireMoves(s, p, SEED_KEY, SeedCount);
    case SeedCount => GotoMoves(s, p, if s.db.messages != map[] then SeedCommit(None, None) else SeedAuthor);
    case SeedAuthor =>
      GotoMoves(s, p, SeedSelect(
        if EmailTaken(s.db.authors, SYSTEM_EMAIL) then None
        else Some(Added(d.newId, Author("system", SYSTEM_EMAIL, d.now)))));
    case SeedSelect(added) => SelectMoves(s, p, added);
    case SeedInsert(added, author) => InsertMoves(s, p, added, author, d);
    case SeedCommit(added, welcome) => CommitMoves(s, p, added, welcome);
    case _ => GotoMoves(s, p, StageOf(s, p));
  }

  lemma CommitMoves(s: State, p: Pid, added: Option<Added<Author>>, welcome: Option<Added<Message>>)
    ensures Moves(s, p, CommitStep(s, p, added, welcome))
  {
  }

  lemma LocksStep(s: State, a: Action, s': State)
    requires LocksOk(s) && Step(s, a, s')
    ensures LocksOk(s')
    ensures !a.Client? ==> Moves(s, a.p, s')
  {
    hide LocksOk, Moves, Leave, Goto, SeedStep, MigrateStep, ClientMay, Exec;
    if a.Client? {
      SameLocks(s, s');
    } else {
      match a {
        case Start(p) => GotoMoves(s, p, MigrateWait);
        case Advance(p, d) => if Migrating(StageOf(s, p)) { MigrateMoves(s, p); } else { SeedMoves(s, p, d); }
        case Fail(p) =>
          LeaveMoves(s, p, Down);
          if Key(StageOf(s, p)) == Some(MIGRATION_KEY) { GotoMoves(s, p, MigrateUnlock(false)); }
        case Crash(p) => LeaveMoves(s, p, Down);
      }
      MovesKeeps(s, a.p, s');
    }
  }

  lemma SameLocks(s: State, s': State)
    requires LocksOk(s) && s'.locks == s.locks && s'.replicas == s.replicas
    ensures LocksOk(s')
  {
  }

  // ---- the schema --------------------------------------------------------------------------

  predicate Migrated(st: Stage) {
    st == MigrateUnlock(true) || Seeding(st) || st.Up?
  }

  predicate SchemaStage(schema: bool, st: Stage) {
    && (st.MigrateApply? ==> st.pending == !schema)
    && (Migrated(st) ==> schema)
  }

  /** The schema was created once if it is there, and replicas past the migration find it. */
  predicate SchemaOk(s: State) {
    && s.upgrades == (if s.schema then 1 else 0)
    && (!s.schema ==> s.db == Tables(map[], map[]))
    && forall p | p in s.replicas :: SchemaStage(s.schema, s.replicas[p])
  }

  /** What a step of one replica does to the schema and the tables. */
  predicate SchemaMove(s: State, p: Pid, s': State) {
    && SchemaStage(s'.schema, StageOf(s', p))
    && (if StageOf(s, p) == MigrateApply(true) && s'.schema != s.schema
        then s'.schema && s'.upgrades == s.upgrades + 1
        else s'.schema == s.schema && s'.upgrades == s.upgrades)
    && (s'.db != s.db ==> StageOf(s, p).SeedCommit?)
  }

  lemma SelectSchema(s: State, p: Pid, added: Option<Added<Author>>)
    requires s.schema
    ensures SchemaMove(s, p, SelectStep(s, p, added))
  {
  }

  lemma InsertSchema(s: State, p: Pid, added: Option<Added<Author>>, author: Id, d: Draw)
    requires s.schema
    ensures SchemaMove(s, p, InsertStep(s, p, added, author, d))
  {
  }

  lemma CommitSchema(s: State, p: Pid, added: Option<Added<Author>>, welcome: Option<Added<Message>>)
    requires s.schema && StageOf(s, p) == SeedCommit(added, welcome)
    ensures SchemaMove(s, p, CommitStep(s, p, added, welcome))
  {
  }

  lemma SeedSchema(s: State, p: Pid, d: Draw)
    requires SchemaStage(s.schema, StageOf(s, p)) && CanAdvance(s, p, d) && Seeding(StageOf(s, p))
    ensures SchemaMove(s, p, SeedStep(s, p, d))
  {
    hide SelectStep, InsertStep, CommitStep, EmailTaken;
    match StageOf(s, p)
    case SeedSelect(added) => SelectSchema(s, p, added);
    case SeedInsert(added, author) => InsertSchema(s, p, added, author, d);
    case SeedCommit(added, welcome) => CommitSchema(s, p, added, welcome);
    case _ =>
  }

  lemma MigrateSchema(s: State, p: Pid)
    requires SchemaStage(s.schema, StageOf(s, p)) && Migrating(StageOf(s, p))
    ensures SchemaMove(s, p, MigrateStep(s, p))
  {
  }

  lemma OneHolder(s: State, p: Pid, q: Pid)
    requires LocksOk(s) && p in s.replicas && q in s.replicas
    requires Key(s.replicas[p]).Some? && Key(s.replicas[p]) == Key(s.replicas[q])
    ensures p == q
  {
  }

  lemma SchemaMoved(s: State, p: Pid, s': State)
    requires LocksOk(s) && SchemaOk(s) && Moves(s, p, s') && SchemaMove(s, p, s')
    ensures SchemaOk(s')
  {
    forall q | q in s'.replicas
      ensures SchemaStage(s'.schema, s'.replicas[q])
    {
      if q != p && s.replicas[q].MigrateApply? && s'.schema != s.schema {
        OneHolder(s, p, q);
      }
    }
  }

  lemma SchemaStep(s: State, a: Action, s': State)
    requires LocksOk(s) && SchemaOk(s) && Step(s, a, s')
    ensures SchemaOk(s')
  {
    hide LocksOk, Moves, SchemaOk, SchemaMove, Step;
    if a.Client? {
      SchemaClient(s, a, s');
    } else {
      LocksStep(s, a, s');
      SchemaStages(s, a.p);
      SchemaOwn(s, a, s');
      SchemaMoved(s, a.p, s');
    }
  }

  lemma SchemaClient(s: State, a: Action, s': State)
    requires SchemaOk(s) && Step(s, a, s') && a.Client?
    ensures SchemaOk(s')
  {
    hide Exec, Undisturbed, SchemaStage;
  }

  lemma SchemaStages(s: State, p: Pid)
    requires SchemaOk(s)
    ensures SchemaStage(s.schema, StageOf(s, p))
  {
  }

  lemma SchemaOwn(s: State, a: Action, s': State)
    requires Step(s, a, s') && !a.Client? && SchemaStage(s.schema, StageOf(s, a.p))
    ensures SchemaMove(s, a.p, s')
  {
    hide SeedStep, MigrateStep, CanAdvance;
    var p := a.p;
    if a.Advance? {
      hide SchemaMove;
      OnlySectionsAdvance(s, p, a.draw);
      if Migrating(StageOf(s, p)) { MigrateSchema(s, p); } else { SeedSchema(s, p, a.draw); }
    }
  }

  lemma OnlySectionsAdvance(s: State, p: Pid, d: Draw)
    requires CanAdvance(s, p, d)
    ensures Migrating(StageOf(s, p)) || Seeding(StageOf(s, p))
  {
  }

  // ---- the welcome message -----------------------------------------------------------------

  /** Found no message when it counted, and has not committed. */
  predicate Inserting(st: Stage) {
    st.SeedAuthor? || st.SeedSelect? || st.SeedInsert? || (st.SeedCommit? && st.welcome.Some?)
  }

  /** At most one of the welcome messages is still there, and none while another is being made. */
  predicate WelcomeOk(s: State) {
    && (forall a, b | a in s.welcomes && b in s.welcomes && a in s.db.messages && b in s.db.messages :: a == b)
    && (forall p | p in s.replicas && Inserting(s.replicas[p]) :: s.welcomes !! s.db.messages.Keys)
  }

  /** What a step does to the welcome messages: nothing, or a seeder that found the table empty
      adds one. */
  ghost predicate WelcomeMove(s: State, p: Pid, s': State) {
    var st, st' := StageOf(s, p), StageOf(s', p);
    && (|| (s'.welcomes == s.welcomes && s'.db.messages == s.db.messages)
        || (Inserting(st) && exists id ::
              s'.welcomes == s.welcomes + {id} && s'.db.messages.Keys == s.db.messages.Keys + {id}))
    && (Inserting(st') ==>
          s'.db.messages == s.db.messages && s'.welcomes == s.welcomes && (Inserting(st) || s.db.messages == map[]))
  }

  lemma SelectWelcome(s: State, p: Pid, added: Option<Added<Author>>)
    requires StageOf(s, p) == SeedSelect(added)
    ensures WelcomeMove(s, p, SelectStep(s, p, added))
  {
  }

  lemma InsertWelcome(s: State, p: Pid, added: Option<Added<Author>>, author: Id, d: Draw)
    requires StageOf(s, p) == SeedInsert(added, author)
    ensures WelcomeMove(s, p, InsertStep(s, p, added, author, d))
  {
  }

  lemma CommitWelcome(s: State, p: Pid, added: Option<Added<Author>>, welcome: Option<Added<Message>>)
    requires StageOf(s, p) == SeedCommit(added, welcome)
    ensures WelcomeMove(s, p, CommitStep(s, p, added, welcome))
  {
    if welcome.Some? {
      var s' := CommitStep(s, p, added, welcome);
      assert s'.db.messages.Keys == s.db.messages.Keys + {welcome.value.id};
    }
  }

  lemma SeedWelcome(s: State, p: Pid, d: Draw)
    requires Seeding(StageOf(s, p))
    ensures WelcomeMove(s, p, SeedStep(s, p, d))
  {
    hide SelectStep, InsertStep, CommitStep, EmailTaken;
    match StageOf(s, p)
    case SeedSelect(added) => SelectWelcome(s, p, added);
    case SeedInsert(added, author) => InsertWelcome(s, p, added, author, d);
    case SeedCommit(added, welcome) => CommitWelcome(s, p, added, welcome);
    case _ =>
  }

  lemma WelcomeMoved(s: State, p: Pid, s': State)
    requires LocksOk(s) && WelcomeOk(s) && Moves(s, p, s') && WelcomeMove(s, p, s')
    ensures WelcomeOk(s')
  {
    forall q | q in s'.replicas && q != p && Inserting(s'.replicas[q]) && Inserting(StageOf(s, p))
      ensures false
    {
      OneHolder(s, p, q);
    }
  }

  lemma ClientWelcome(s: State, r: Request, d: Draw)
    requires Fresh(s.db, r, d) && (r.CreateMessage? ==> d.newId !in s.welcomes)
    ensures forall m | m in Exec(s.db, r, d).tables.messages && m in s.welcomes :: m in s.db.messages
  {
    hide EmailTaken, Referenced;
  }

  lemma WelcomeStep(s: State, a: Action, s': State)
    requires LocksOk(s) && WelcomeOk(s) && Step(s, a, s')
    ensures WelcomeOk(s')
  {
    LocksStep(s, a, s');
    hide LocksOk, Moves, SeedStep, MigrateStep, Exec, Undisturbed, CanAdvance;
    if a.Client? {
      ClientWelcome(s, a.request, a.draw);
    } else {
      hide WelcomeOk;
      var p := a.p;
      if a.Advance? {
        OnlySectionsAdvance(s, p, a.draw);
        if Migrating(StageOf(s, p)) { MigrateWelcome(s, p); } else { SeedWelcome(s, p, a.draw); }
      }
      WelcomeMoved(s, p, s');
    }
  }

  lemma MigrateWelcome(s: State, p: Pid)
    requires Migrating(StageOf(s, p))
    ensures WelcomeMove(s, p, MigrateStep(s, p))
  {
  }

  // ---- the rows a seeder writes ------------------------------------------------------------

  predicate AddedOk(t: Tables, added: Option<Added<Author>>) {
    added.Some? ==>
      && added.value.id !in t.authors && !EmailTaken(t.authors, SYSTEM_EMAIL)
      && ValidAuthor(added.value.row) && added.value.row.email == SYSTEM_EMAIL
  }

  predicate PendingOk(t: Tables, st: Stage) {
    && (st.SeedSelect? || st.SeedInsert? || st.SeedCommit? ==> AddedOk(t, st.added))
    && (st.SeedCommit? && st.welcome.Some? ==>
          && st.welcome.value.id !in t.messages && ValidMessage(st.welcome.value.row)
          && Referable(t, st.added, st.welcome.value.row.authorId))
  }

  predicate DataOk(s: State) {
    Sound(s.db) && forall p | p in s.replicas :: PendingOk(s.db, s.replicas[p])
  }

  predicate Printable(s: string) {
    forall i | 0 <= i < |s| :: '!' <= s[i] <= '~' && s[i] != '@'
  }

  lemma PrintableIsInClass(s: string)
    requires Printable(s)
    ensures AllInClass(s) && Storable(s)
  {
  }

  lemma AddressShape(user: string, host: string, top: string)
    requires Printable(user) && Printable(host) && Printable(top) && user != "" && host != "" && top != ""
    ensures var email := user + "@" + host + "." + top;
            NoSpace(email) && Trimmed(email) && Storable(email) && Shape(email, |user|, |user| + 1 + |host|)
  {
    PrintableIsInClass(user);
    PrintableIsInClass(host);
    PrintableIsInClass(top);
    assert !IsSpace('@') && !IsSpace('.') && InClass('.');
    hide IsSpace, Printable;
    var email := user + "@" + host + "." + top;
    forall i | 0 <= i < |email|
      ensures !IsSpace(email[i]) && email[i] != '\0' && (email[i] == '@' <==> i == |user|)
    {
      assert i != |user| ==> email[i] in user || email[i] in host || email[i] == '.' || email[i] in top;
    }
  }

  lemma SystemAuthorIsValid()
    ensures StoredText("system", NAME_MAX) && ValidAddress(SYSTEM_EMAIL) && Storable(SYSTEM_EMAIL)
  {
    NamesArePrintable();
    PrintableIsInClass("system");
    hide NoSpace, ValidEmail, Shape, Printable, Storable;
    AddressShape("system", "message-service", "local");
    assert SYSTEM_EMAIL == "system" + "@" + "message-service" + "." + "local";
    EmailExactly(SYSTEM_EMAIL);
  }

  lemma NamesArePrintable()
    ensures Printable("system") && Printable("message-service") && Printable("local")
  {
  }

  lemma TitleIsValid()
    ensures StoredText(WELCOME_TITLE, TITLE_MAX)
  {
    assert forall i | 0 <= i < 34 :: WELCOME_TITLE[i] != '\0';
    assert |WELCOME_TITLE| == 34 && WELCOME_TITLE[33] == 'I' && WELCOME_TITLE[0] == 'W';
  }

  lemma ContentIsValid()
    ensures StoredText(WELCOME_CONTENT, CONTENT_MAX)
  {
    var front, back := "A sample message backed by FastAPI ", "and PostgreSQL on a kind cluster.";
    assert |front| == 35 && |back| == 33 && front[0] == 'A' && back[32] == '.';
    assert WELCOME_CONTENT == front + back;
    assert forall i | 0 <= i < 35 :: front[i] != '\0';
    assert forall i | 0 <= i < 33 :: back[i] != '\0';
  }

  lemma WelcomeIsValid(author: Id, now: nat)
    ensures ValidMessage(Message(WELCOME_TITLE, WELCOME_CONTENT, author, now, 0))
  {
    hide ValidText, Storable;
    TitleIsValid();
    ContentIsValid();
  }

  /** A step of one replica leaves the tables as they are and has valid rows in hand, or commits
      rows that keep the tables sound. */
  ghost predicate DataMove(s: State, p: Pid, s': State) {
    && (s'.db == s.db || (StageOf(s, p).SeedCommit? && Sound(s'.db)))
    && PendingOk(s'.db, StageOf(s', p))
  }

  lemma CountData(s: State, p: Pid, d: Draw)
    requires StageOf(s, p).SeedWait? || StageOf(s, p).SeedCount?
    ensures DataMove(s, p, SeedStep(s, p, d))
  {
  }

  lemma AuthorData(s: State, p: Pid, d: Draw)
    requires StageOf(s, p).SeedAuthor? && d.newId !in s.db.authors
    ensures DataMove(s, p, SeedStep(s, p, d))
  {
    SystemAuthorIsValid();
    hide ValidText, ValidAddress, EmailTaken, IsSystemAuthor;
  }

  lemma SelectData(s: State, p: Pid, added: Option<Added<Author>>)
    requires StageOf(s, p) == SeedSelect(added) && PendingOk(s.db, StageOf(s, p))
    ensures DataMove(s, p, SelectStep(s, p, added))
  {
    hide AddedOk;
  }

  lemma InsertData(s: State, p: Pid, added: Option<Added<Author>>, author: Id, d: Draw)
    requires StageOf(s, p) == SeedInsert(added, author) && PendingOk(s.db, StageOf(s, p))
    requires d.newId !in s.db.messages
    ensures DataMove(s, p, InsertStep(s, p, added, author, d))
  {
    WelcomeIsValid(author, d.now);
    hide AddedOk, ValidMessage;
  }

  lemma SeededIsSound(t: Tables, added: Option<Added<Author>>, welcome: Option<Added<Message>>)
    requires Sound(t) && PendingOk(t, SeedCommit(added, welcome))
    ensures Sound(Seeded(t, added, welcome))
  {
    hide ValidAuthor, ValidMessage;
  }

  lemma CommitDb(s: State, p: Pid, added: Option<Added<Author>>, welcome: Option<Added<Message>>)
    ensures var s' := CommitStep(s, p, added, welcome);
            s'.db == Seeded(s.db, added, welcome) && StageOf(s', p) == Up
  {
    hide Seeded;
  }

  lemma CommitData(s: State, p: Pid, added: Option<Added<Author>>, welcome: Option<Added<Message>>)
    requires StageOf(s, p) == SeedCommit(added, welcome) && PendingOk(s.db, StageOf(s, p)) && Sound(s.db)
    ensures DataMove(s, p, CommitStep(s, p, added, welcome))
  {
    hide Sound, Seeded, PendingOk, CommitStep;
    SeededIsSound(s.db, added, welcome);
    CommitDb(s, p, added, welcome);
    PendingTrivial(Seeded(s.db, added, welcome), Up);
  }

  lemma PendingTrivial(t: Tables, st: Stage)
    requires Key(st) != Some(SEED_KEY)
    ensures PendingOk(t, st)
  {
  }

  lemma SeedData(s: State, p: Pid, d: Draw)
    requires Seeding(StageOf(s, p)) && CanAdvance(s, p, d) && PendingOk(s.db, StageOf(s, p)) && Sound(s.db)
    ensures DataMove(s, p, SeedStep(s, p, d))
  {
    CountOrAuthorData(s, p, d);
    hide DataMove, SelectStep, InsertStep, CommitStep, EmailTaken, PendingOk, Sound;
    match StageOf(s, p)
    case SeedSelect(added) => SelectData(s, p, added);
    case SeedInsert(added, author) => InsertData(s, p, added, author, d);
    case SeedCommit(added, welcome) => CommitData(s, p, added, welcome);
    case _ =>
  }

  lemma CountOrAuthorData(s: State, p: Pid, d: Draw)
    requires CanAdvance(s, p, d)
    ensures (StageOf(s, p).SeedWait? || StageOf(s, p).SeedCount? || StageOf(s, p).SeedAuthor?) ==>
              DataMove(s, p, SeedStep(s, p, d))
  {
    hide DataMove, SeedStep;
    match StageOf(s, p)
    case SeedWait => CountData(s, p, d);
    case SeedCount => CountData(s, p, d);
    case SeedAuthor => AuthorData(s, p, d);
    case _ =>
  }

  lemma DataMoved(s: State, p: Pid, s': State)
    requires LocksOk(s) && DataOk(s) && Moves(s, p, s') && DataMove(s, p, s')
    ensures DataOk(s')
  {
    hide Sound, AddedOk, ValidMessage, Referable;
    forall q | q in s'.replicas
      ensures PendingOk(s'.db, s'.replicas[q])
    {
      if q != p && s'.db != s.db && Key(s.replicas[q]) == Some(SEED_KEY) {
        OneHolder(s, p, q);
      }
    }
  }

  lemma ClientAuthors(t: Tables, st: Stage, r: Request, d: Draw)
    requires PendingOk(t, st) && Undisturbed(st, r, d)
    ensures var t' := Exec(t, r, d).tables;
            st.SeedSelect? || st.SeedInsert? || st.SeedCommit? ==> AddedOk(t', st.added)
  {
    hide ValidAuthor, Referenced, Referable, ValidMessage;
    var t' := Exec(t, r, d).tables;
    if (st.SeedSelect? || st.SeedInsert? || st.SeedCommit?) && st.added.Some? {
      forall a | a in t'.authors
        ensures t'.authors[a].email != SYSTEM_EMAIL && a != st.added.value.id
      {
        assert a in t.authors ==> t.authors[a].email != SYSTEM_EMAIL;
      }
    }
  }

  lemma ClientRows(t: Tables, st: Stage, r: Request, d: Draw)
    requires PendingOk(t, st) && Undisturbed(st, r, d)
    requires st.SeedCommit? && st.welcome.Some?
    ensures var t' := Exec(t, r, d).tables;
            st.welcome.value.id !in t'.messages && Referable(t', st.added, st.welcome.value.row.authorId)
  {
    hide EmailTaken, Referenced, AddedOk, ValidMessage;
  }

  lemma ClientData(s: State, r: Request, d: Draw)
    requires DataOk(s) && ClientMay(s, r, d)
    ensures DataOk(s.(db := Exec(s.db, r, d).tables))
  {
    hide Sound, Exec, AddedOk, Fresh, ValidRequest, Undisturbed, ValidMessage, Referable;
    ExecKeepsSound(s.db, r, d);
    var t' := Exec(s.db, r, d).tables;
    forall p | p in s.replicas
      ensures PendingOk(t', s.replicas[p])
    {
      var st := s.replicas[p];
      ClientAuthors(s.db, st, r, d);
      if st.SeedCommit? && st.welcome.Some? {
        ClientRows(s.db, st, r, d);
      }
    }
  }

  lemma MigrateData(s: State, p: Pid)
    requires Migrating(StageOf(s, p))
    ensures DataMove(s, p, MigrateStep(s, p))
  {
    hide Sound;
  }

  lemma DataStep(s: State, a: Action, s': State)
    requires LocksOk(s) && DataOk(s) && Step(s, a, s')
    ensures DataOk(s')
  {
    hide LocksOk, DataOk, Moves, DataMove, Step, Sound, PendingOk;
    if a.Client? {
      DataClient(s, a, s');
    } else {
      LocksStep(s, a, s');
      PendingOf(s, a.p);
      DataOwn(s, a, s');
      DataMoved(s, a.p, s');
    }
  }

  lemma DataClient(s: State, a: Action, s': State)
    requires DataOk(s) && Step(s, a, s') && a.Client?
    ensures DataOk(s')
  {
    hide DataOk, Exec, ClientMay;
    ClientData(s, a.request, a.draw);
  }

  lemma DataOwn(s: State, a: Action, s': State)
    requires Step(s, a, s') && !a.Client? && Sound(s.db) && PendingOk(s.db, StageOf(s, a.p))
    ensures DataMove(s, a.p, s')
  {
    hide SeedStep, MigrateStep, CanAdvance, Sound, AddedOk;
    var p := a.p;
    if a.Advance? {
      hide DataMove, PendingOk;
      OnlySectionsAdvance(s, p, a.draw);
      if Migrating(StageOf(s, p)) { MigrateData(s, p); } else { SeedData(s, p, a.draw); }
    }
  }

  lemma PendingOf(s: State, p: Pid)
    requires DataOk(s)
    ensures Sound(s.db) && PendingOk(s.db, StageOf(s, p))
  {
  }

  // ---- runs --------------------------------------------------------------------------------

  lemma {:induction false} Reachable(states: seq<State>, actions: seq<Action>, i: nat)
    requires IsExecution(states, actions) && i < |states|
    ensures LocksOk(states[i]) && SchemaOk(states[i]) && WelcomeOk(states[i]) && DataOk(states[i])
  {
    if i > 0 {
      hide LocksOk, SchemaOk, WelcomeOk, DataOk, Step;
      Reachable(states, actions, i - 1);
      var s, a, s' := states[i - 1], actions[i - 1], states[i];
      assert Step(s, a, s');
      LocksStep(s, a, s');
      SchemaStep(s, a, s');
      WelcomeStep(s, a, s');
      DataStep(s, a, s');
    }
  }

  /** At most one replica is inside the migration and at most one inside the seeding, and it holds
      the lock; and a lock that is held has a replica inside. */
  lemma AtMostOneInside(states: seq<State>, actions: seq<Action>, i: nat)
    requires IsExecution(states, actions) && i < |states|
    ensures var s := states[i];
            && (forall p, q | p in s.replicas && q in s.replicas && Key(s.replicas[p]).Some? &&
                              Key(s.replicas[p]) == Key(s.replicas[q]) :: p == q)
            && (forall k | k in s.locks ::
                  s.locks[k] in s.replicas && Key(s.replicas[s.locks[k]]) == Some(k))
            && (forall p | p in s.replicas && Key(s.replicas[p]).Some? ::
                  Key(s.replicas[p]).value in s.locks)
  {
    hide SchemaOk, WelcomeOk, DataOk, Step;
    Reachable(states, actions, i);
  }

  /** However many replicas start, and whichever of them fail, the schema is created at most once,
      and no replica gets past the migration before it is. */
  lemma SchemaCreatedOnce(states: seq<State>, actions: seq<Action>, i: nat)
    requires IsExecution(states, actions) && i < |states|
    ensures states[i].upgrades <= 1 && (states[i].upgrades == 1 <==> states[i].schema)
    ensures forall p | p in states[i].replicas && Migrated(states[i].replicas[p]) :: states[i].schema
  {
    hide LocksOk, WelcomeOk, DataOk, Step;
    Reachable(states, actions, i);
  }

  /** Whatever clients insert, change and delete meanwhile, there is never more than one of the
      seeders' welcome messages in the table, and the tables stay sound. */
  lemma OneWelcomeAtATime(states: seq<State>, actions: seq<Action>, i: nat)
    requires IsExecution(states, actions) && i < |states|
    ensures Sound(states[i].db)
    ensures forall a, b | a in states[i].welcomes && b in states[i].welcomes &&
                          a in states[i].db.messages && b in states[i].db.messages :: a == b
  {
    hide LocksOk, SchemaOk, Step, Sound;
    Reachable(states, actions, i);
  }

  // ---- while no message is deleted ---------------------------------------------------------

  predicate DeletesMessage(a: Action) {
    a.Client? && a.request.DeleteMessage?
  }

  predicate KeptOk(s: State) {
    && s.welcomes <= s.db.messages.Keys
    && (s.seeded ==> s.db.messages != map[])
    && forall p | p in s.replicas :: s.replicas[p].SeedCommit? && s.replicas[p].welcome.None? ==> s.db.messages != map[]
  }

  ghost predicate KeptMove(s: State, p: Pid, s': State) {
    var st, st' := StageOf(s, p), StageOf(s', p);
    && s.db.messages.Keys <= s'.db.messages.Keys
    && (s'.welcomes == s.welcomes || s'.welcomes <= s.welcomes + s'.db.messages.Keys)
    && (s'.seeded ==> s.seeded || s'.db.messages != map[])
    && (st'.SeedCommit? && st'.welcome.None? ==> s'.db.messages != map[])
  }

  lemma SelectKept(s: State, p: Pid, added: Option<Added<Author>>)
    requires StageOf(s, p) == SeedSelect(added)
    ensures KeptMove(s, p, SelectStep(s, p, added))
  {
  }

  lemma InsertKept(s: State, p: Pid, added: Option<Added<Author>>, author: Id, d: Draw)
    requires StageOf(s, p) == SeedInsert(added, author)
    ensures KeptMove(s, p, InsertStep(s, p, added, author, d))
  {
  }

  lemma CommitKept(s: State, p: Pid, added: Option<Added<Author>>, welcome: Option<Added<Message>>)
    requires welcome.None? ==> s.db.messages != map[]
    ensures KeptMove(s, p, CommitStep(s, p, added, welcome))
  {
    if welcome.Some? {
      var s' := CommitStep(s, p, added, welcome);
      assert welcome.value.id in s'.db.messages;
    }
  }

  lemma SeedKept(s: State, p: Pid, d: Draw)
    requires Seeding(StageOf(s, p))
    requires StageOf(s, p).SeedCommit? && StageOf(s, p).welcome.None? ==> s.db.messages != map[]
    ensures KeptMove(s, p, SeedStep(s, p, d))
  {
    hide SelectStep, InsertStep, CommitStep, EmailTaken;
    match StageOf(s, p)
    case SeedSelect(added) => SelectKept(s, p, added);
    case SeedInsert(added, author) => InsertKept(s, p, added, author, d);
    case SeedCommit(added, welcome) => CommitKept(s, p, added, welcome);
    case _ =>
  }

  lemma MigrateKept(s: State, p: Pid)
    requires Migrating(StageOf(s, p))
    ensures KeptMove(s, p, MigrateStep(s, p))
  {
  }

  lemma KeptMoved(s: State, p: Pid, s': State)
    requires KeptOk(s) && Moves(s, p, s') && KeptMove(s, p, s')
    ensures KeptOk(s')
  {
    assert s.db.messages != map[] ==> s'.db.messages != map[] by {
      if s.db.messages != map[] {
        var m :| m in s.db.messages;
        assert m in s'.db.messages.Keys;
      }
    }
  }

  lemma ClientKept(t: Tables, r: Request, d: Draw)
    requires !r.DeleteMessage?
    ensures t.messages.Keys <= Exec(t, r, d).tables.messages.Keys
    ensures t.messages != map[] ==> Exec(t, r, d).tables.messages != map[]
  {
    hide EmailTaken, Referenced;
    if t.messages != map[] {
      var m :| m in t.messages;
      assert m in Exec(t, r, d).tables.messages;
    }
  }

  lemma KeptStep(s: State, a: Action, s': State)
    requires LocksOk(s) && KeptOk(s) && Step(s, a, s') && !DeletesMessage(a)
    ensures KeptOk(s')
  {
    LocksStep(s, a, s');
    hide LocksOk, Moves, SeedStep, MigrateStep, Exec, Undisturbed, CanAdvance;
    if a.Client? {
      ClientKept(s.db, a.request, a.draw);
    } else {
      var p := a.p;
      if a.Advance? {
        OnlySectionsAdvance(s, p, a.draw);
        if Migrating(StageOf(s, p)) { MigrateKept(s, p); } else { SeedKept(s, p, a.draw); }
      }
      assert KeptMove(s, p, s');
      hide KeptOk;
      KeptMoved(s, p, s');
    }
  }

  lemma StepInRun(states: seq<State>, actions: seq<Action>, i: nat)
    requires IsExecution(states, actions) && i < |actions|
    ensures LocksOk(states[i]) && DataOk(states[i]) && Step(states[i], actions[i], states[i + 1])
  {
    hide LocksOk, SchemaOk, WelcomeOk, DataOk, Step;
    Reachable(states, actions, i);
  }

  lemma InitKept(s: State)
    requires Init(s)
    ensures KeptOk(s)
  {
  }

  lemma {:induction false} KeptRun(states: seq<State>, actions: seq<Action>, i: nat)
    requires IsExecution(states, actions) && i < |states|
    requires forall k | 0 <= k < i :: !DeletesMessage(actions[k])
    ensures KeptOk(states[i])
  {
    hide LocksOk, DataOk, KeptOk, Step, DeletesMessage, Init;
    if i > 0 {
      KeptRun(states, actions, i - 1);
      StepInRun(states, actions, i - 1);
      KeptStep(states[i - 1], actions[i - 1], states[i]);
    } else {
      InitKept(states[0]);
    }
  }

  /** As long as no message is deleted, at most one welcome message is ever inserted, and from the
      first commit of a seeder on the table is never empty. */
  lemma OneWelcomeEver(states: seq<State>, actions: seq<Action>, i: nat)
    requires IsExecution(states, actions) && i < |states|
    requires forall k | 0 <= k < i :: !DeletesMessage(actions[k])
    ensures |states[i].welcomes| <= 1
    ensures states[i].seeded ==> states[i].db.messages != map[]
  {
    hide LocksOk, SchemaOk, DataOk, Step, DeletesMessage;
    KeptRun(states, actions, i);
    Reachable(states, actions, i);
    SingleSize(states[i].welcomes);
  }

  lemma SingleSize(ids: set<Id>)
    requires forall a, b | a in ids && b in ids :: a == b
    ensures |ids| <= 1
  {
    if ids != {} {
      var a :| a in ids;
      assert ids == {a};
    }
  }

  // ---- leaving -----------------------------------------------------------------------------

  /** A migration that fails leaves the schema as it was, and its next step frees the lock. */
  lemma FailedMigrationUnlocks(states: seq<State>, actions: seq<Action>, i: nat, p: Pid, d: Draw)
    requires IsExecution(states, actions) && i < |states|
    requires StageOf(states[i], p).MigrateRead? || StageOf(states[i], p).MigrateApply?
    ensures var s := states[i];
            var s1 := Apply(s, Fail(p));
            var s2 := Apply(s1, Advance(p, d));
            && Step(s, Fail(p), s1) && Step(s1, Advance(p, d), s2)
            && MIGRATION_KEY in s1.locks && MIGRATION_KEY !in s2.locks
            && StageOf(s2, p) == Down && s2.schema == s.schema && s2.db == s.db
  {
    hide SchemaOk, WelcomeOk, DataOk, Step;
    Reachable(states, actions, i);
    FailThenUnlock(states[i], p, d);
  }

  lemma FailThenUnlock(s: State, p: Pid, d: Draw)
    requires LocksOk(s) && (StageOf(s, p).MigrateRead? || StageOf(s, p).MigrateApply?)
    ensures var s1 := Apply(s, Fail(p));
            var s2 := Apply(s1, Advance(p, d));
            && Step(s, Fail(p), s1) && Step(s1, Advance(p, d), s2)
            && MIGRATION_KEY in s1.locks && MIGRATION_KEY !in s2.locks
            && StageOf(s2, p) == Down && s2.schema == s.schema && s2.db == s.db
  {
    hide SeedStep, ClientMay, Exec;
  }

  /** A replica that dies, or whose seeding fails, frees its lock at once and leaves no row. */
  lemma DyingFreesLock(states: seq<State>, actions: seq<Action>, i: nat, p: Pid)
    requires IsExecution(states, actions) && i < |states|
    requires Key(StageOf(states[i], p)).Some?
    ensures var s := states[i];
            var key := Key(StageOf(s, p)).value;
            && (var s' := Apply(s, Crash(p));
                key in s.locks && key !in s'.locks && s'.db == s.db && s'.schema == s.schema)
            && (key == SEED_KEY ==>
                  var s' := Apply(s, Fail(p)); key !in s'.locks && s'.db == s.db && StageOf(s', p) == Down)
  {
    hide SchemaOk, WelcomeOk, DataOk, Step;
    Reachable(states, actions, i);
    hide SeedStep, MigrateStep, Exec;
  }

  /** What a replica that cannot go on waits for. */
  function WaitsFor(st: Stage): Option<int> {
    if st.MigrateWait? then Some(MIGRATION_KEY) else if st.SeedWait? then Some(SEED_KEY) else None
  }

  lemma SomeDrawAdvances(s: State, p: Pid)
    requires Migrating(StageOf(s, p)) || Seeding(StageOf(s, p))
    requires WaitsFor(StageOf(s, p)).Some? ==> WaitsFor(StageOf(s, p)).value !in s.locks
    ensures exists d :: CanAdvance(s, p, d)
  {
    var id := FreshId(s.db.authors.Keys + s.db.messages.Keys + s.welcomes);
    assert CanAdvance(s, p, Draw(id, 0));
  }

  /** Nobody is stuck: a replica that is on its way up can take its next step, or the replica that
      holds the lock it waits for can. */
  lemma NobodyIsStuck(states: seq<State>, actions: seq<Action>, i: nat, p: Pid)
    requires IsExecution(states, actions) && i < |states|
    requires Migrating(StageOf(states[i], p)) || Seeding(StageOf(states[i], p))
    ensures var s := states[i];
            exists q, d ::
              && CanAdvance(s, q, d)
              && (q == p || (Key(StageOf(s, q)).Some? && Key(StageOf(s, q)) == WaitsFor(StageOf(s, p))))
  {
    hide SchemaOk, WelcomeOk, DataOk, Step;
    Reachable(states, actions, i);
    hide CanAdvance;
    var s := states[i];
    var key := WaitsFor(StageOf(s, p));
    var q := if key.Some? && key.value in s.locks then s.locks[key.value] else p;
    SomeDrawAdvances(s, q);
  }
}
