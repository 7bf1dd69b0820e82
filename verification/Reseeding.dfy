/** When a replica seeds: exactly when its count finds no message. And when there is ever a second
    welcome message: exactly when that happens again after the first. */
module Reseeding {
  import opened Validation
  import opened Relational
  import opened Sets
  import opened Startup

  // ---- one passage through the seeding -----------------------------------------------------

  /** The step counts the messages. */
  predicate Counts(s: State, a: Action) {
    a.Advance? && StageOf(s, a.p).SeedCount?
  }

  /** The step commits a seeding transaction. */
  predicate CommitsSeed(s: State, a: Action) {
    a.Advance? && StageOf(s, a.p).SeedCommit?
  }

  predicate AddsWelcome(s: State, a: Action) {
    CommitsSeed(s, a) && StageOf(s, a.p).welcome.Some?
  }

  predicate PastCount(st: Stage) {
    st.SeedAuthor? || st.SeedSelect? || st.SeedInsert? || st.SeedCommit?
  }

  /** A replica counts in the k-th step and, without failing or dying, commits in the j-th. */
  predicate Passage(states: seq<State>, actions: seq<Action>, p: Pid, k: nat, j: nat) {
    && |states| == |actions| + 1 && k < j < |actions|
    && Counts(states[k], actions[k]) && actions[k].p == p
    && CommitsSeed(states[j], actions[j]) && actions[j].p == p
    && forall l | k < l <= j :: PastCount(StageOf(states[l], p))
  }

  // ---- one step ----------------------------------------------------------------------------

  /** A replica is past its count because it was before, with the same outcome, or because it has
      counted in this very step. */
  lemma PastCountStep(s: State, a: Action, s': State, p: Pid)
    requires LocksOk(s) && Step(s, a, s') && PastCount(StageOf(s', p))
    ensures PastCount(StageOf(s, p)) || (Counts(s, a) && a.p == p)
    ensures if Counts(s, a) && a.p == p then Inserting(StageOf(s', p)) <==> s.db.messages == map[]
            else Inserting(StageOf(s', p)) <==> Inserting(StageOf(s, p))
    ensures CommitsSeed(s, a) ==> a.p != p
  {
    hide LocksOk, Step;
    if a.Client? || a.p != p {
      OthersStay(s, a, s', p);
    } else {
      OwnPastCount(s, a, s');
    }
  }

  lemma OthersStay(s: State, a: Action, s': State, p: Pid)
    requires LocksOk(s) && Step(s, a, s') && (a.Client? || a.p != p)
    ensures StageOf(s', p) == StageOf(s, p)
  {
    if a.Client? {
      hide Exec, ClientMay;
    } else {
      LocksStep(s, a, s');
      hide LocksOk, Step;
    }
  }

  lemma OwnPastCount(s: State, a: Action, s': State)
    requires Step(s, a, s') && !a.Client? && PastCount(StageOf(s', a.p))
    ensures a.Advance? && !CommitsSeed(s, a)
    ensures PastCount(StageOf(s, a.p)) || Counts(s, a)
    ensures if Counts(s, a) then Inserting(StageOf(s', a.p)) <==> s.db.messages == map[]
            else Inserting(StageOf(s', a.p)) <==> Inserting(StageOf(s, a.p))
  {
    hide EmailTaken, IsSystemAuthor, Referable, Seeded, CanAdvance;
  }

  lemma WelcomesStep(s: State, a: Action, s': State)
    requires Step(s, a, s')
    ensures s'.welcomes == if AddsWelcome(s, a) then s.welcomes + {StageOf(s, a.p).welcome.value.id} else s.welcomes
  {
    hide Exec, ClientMay, EmailTaken, IsSystemAuthor, Referable, Seeded;
  }

  // ---- fresh ids ---------------------------------------------------------------------------

  predicate NewWelcome(s: State, st: Stage) {
    st.SeedCommit? && st.welcome.Some? ==> st.welcome.value.id !in s.welcomes
  }

  predicate NewOk(s: State) {
    forall p | p in s.replicas :: NewWelcome(s, s.replicas[p])
  }

  lemma NewOwn(s: State, a: Action, s': State)
    requires Step(s, a, s') && NewOk(s) && !a.Client?
    ensures NewWelcome(s', StageOf(s', a.p))
  {
    hide EmailTaken, IsSystemAuthor, Referable, Seeded;
  }

  lemma NewStep(s: State, a: Action, s': State)
    requires LocksOk(s) && NewOk(s) && Step(s, a, s')
    ensures NewOk(s')
  {
    WelcomesStep(s, a, s');
    LocksStep(s, a, s');
    if a.Client? {
      hide Exec, Undisturbed;
    } else {
      NewOwn(s, a, s');
      hide Step, AddsWelcome;
      forall q | q in s'.replicas && q != a.p
        ensures NewWelcome(s', s'.replicas[q])
      {
        assert NewWelcome(s, s.replicas[q]);
        if AddsWelcome(s, a) && s.replicas[q].SeedCommit? {
          AddsInside(s, a);
          OneHolder(s, a.p, q);
        }
      }
    }
  }

  lemma AddsInside(s: State, a: Action)
    requires AddsWelcome(s, a)
    ensures a.p in s.replicas && Key(s.replicas[a.p]) == Some(SEED_KEY)
  {
  }

  lemma {:induction false} NewRun(states: seq<State>, actions: seq<Action>, i: nat)
    requires IsExecution(states, actions) && i < |states|
    ensures NewOk(states[i])
  {
    hide LocksOk, DataOk, Step;
    if i > 0 {
      NewRun(states, actions, i - 1);
      StepInRun(states, actions, i - 1);
      hide NewOk;
      NewStep(states[i - 1], actions[i - 1], states[i]);
    }
  }

  // ---- passages ----------------------------------------------------------------------------

  /** Whoever is past its count has counted, and what it does next was settled then. */
  lemma {:induction false} CountedBefore(states: seq<State>, actions: seq<Action>, p: Pid, l: nat) returns (k: nat)
    requires IsExecution(states, actions) && l < |states| && PastCount(StageOf(states[l], p))
    ensures k < l && Counts(states[k], actions[k]) && actions[k].p == p
    ensures forall x | k < x <= l :: PastCount(StageOf(states[x], p))
    ensures Inserting(StageOf(states[l], p)) <==> states[k].db.messages == map[]
    decreases l
  {
    hide Step, PastCount, Inserting, Init, LocksOk, DataOk;
    k := 0;
    if l == 0 {
      NobodyAtFirst(states[0], p);
    } else {
      StepInRun(states, actions, l - 1);
      PastCountStep(states[l - 1], actions[l - 1], states[l], p);
      if Counts(states[l - 1], actions[l - 1]) && actions[l - 1].p == p {
        k := l - 1;
      } else {
        k := CountedBefore(states, actions, p, l - 1);
      }
    }
  }

  lemma NobodyAtFirst(s: State, p: Pid)
    requires Init(s)
    ensures !PastCount(StageOf(s, p))
  {
  }

  /** While a replica is past its count nobody else commits a welcome. */
  lemma {:induction false} NobodyElse(states: seq<State>, actions: seq<Action>, p: Pid, k: nat, l: nat)
    requires IsExecution(states, actions) && k < l < |states|
    requires Counts(states[k], actions[k]) && forall x | k < x <= l :: PastCount(StageOf(states[x], p))
    ensures states[l].welcomes == states[k].welcomes
    decreases l
  {
    hide Step, LocksOk, DataOk, Init, PastCount, Inserting;
    StepInRun(states, actions, l - 1);
    WelcomesStep(states[l - 1], actions[l - 1], states[l]);
    if l - 1 > k {
      NobodyElse(states, actions, p, k, l - 1);
      PastCountStep(states[l - 1], actions[l - 1], states[l], p);
      if AddsWelcome(states[l - 1], actions[l - 1]) {
        AddsInside(states[l - 1], actions[l - 1]);
        PastInside(states[l - 1], p);
        OneHolder(states[l - 1], actions[l - 1].p, p);
      }
    }
  }

  lemma PastInside(s: State, p: Pid)
    requires PastCount(StageOf(s, p))
    ensures p in s.replicas && Key(s.replicas[p]) == Some(SEED_KEY)
  {
  }

  /** A seeder adds a welcome message exactly when its count found no message, and it is a new one. */
  lemma SeedsExactlyWhenEmpty(states: seq<State>, actions: seq<Action>, p: Pid, k: nat, j: nat)
    requires IsExecution(states, actions) && Passage(states, actions, p, k, j)
    ensures AddsWelcome(states[j], actions[j]) <==> states[k].db.messages == map[]
    ensures |states[j + 1].welcomes| == |states[k].welcomes| + if states[k].db.messages == map[] then 1 else 0
  {
    hide Step, LocksOk, DataOk, Init;
    SettledBy(states, actions, p, k, j);
    NobodyElse(states, actions, p, k, j);
    StepInRun(states, actions, j);
    WelcomesStep(states[j], actions[j], states[j + 1]);
    NewRun(states, actions, j);
    assert p in states[j].replicas ==> NewWelcome(states[j], states[j].replicas[p]);
  }

  lemma {:induction false} SettledBy(states: seq<State>, actions: seq<Action>, p: Pid, k: nat, l: nat)
    requires IsExecution(states, actions) && k < l < |states|
    requires Counts(states[k], actions[k]) && actions[k].p == p
    requires forall x | k < x <= l :: PastCount(StageOf(states[x], p))
    ensures Inserting(StageOf(states[l], p)) <==> states[k].db.messages == map[]
    decreases l
  {
    hide Step, Inserting, Init, PastCount, LocksOk, DataOk;
    StepInRun(states, actions, l - 1);
    PastCountStep(states[l - 1], actions[l - 1], states[l], p);
    if l - 1 > k {
      SettledBy(states, actions, p, k, l - 1);
      if Counts(states[l - 1], actions[l - 1]) && actions[l - 1].p == p {
        CountingIsNotPast(states[l - 1], actions[l - 1]);
      }
    }
  }

  lemma CountingIsNotPast(s: State, a: Action)
    requires Counts(s, a)
    ensures !PastCount(StageOf(s, a.p))
  {
  }

  // ---- a second welcome --------------------------------------------------------------------

  /** A replica finds the table empty after a welcome message was committed, and commits. */
  predicate SeedsAgain(states: seq<State>, actions: seq<Action>, p: Pid, k: nat, j: nat) {
    && Passage(states, actions, p, k, j)
    && states[k].db.messages == map[] && states[k].welcomes != {}
  }

  /** A second welcome message is ever committed exactly when a replica's count finds the table
      empty after the first, and the replica lives to commit. */
  lemma SecondWelcomeExactly(states: seq<State>, actions: seq<Action>, i: nat)
    requires IsExecution(states, actions) && i < |states|
    ensures |states[i].welcomes| >= 2 <==> exists p, k: nat, j: nat :: j < i && SeedsAgain(states, actions, p, k, j)
  {
    hide SeedsAgain, Step, Init;
    if |states[i].welcomes| >= 2 {
      var p, k, j := SecondCommit(states, actions, i);
    }
    forall p, k: nat, j: nat | j < i && SeedsAgain(states, actions, p, k, j)
      ensures |states[i].welcomes| >= 2
    {
      AgainIsSecond(states, actions, p, k, j);
      WelcomesGrow(states, actions, j + 1, i);
    }
  }

  lemma AgainIsSecond(states: seq<State>, actions: seq<Action>, p: Pid, k: nat, j: nat)
    requires IsExecution(states, actions) && SeedsAgain(states, actions, p, k, j)
    ensures j + 1 < |states| && |states[j + 1].welcomes| >= 2
  {
    hide Step, Init;
    SeedsExactlyWhenEmpty(states, actions, p, k, j);
  }

  lemma {:induction false} WelcomesGrow(states: seq<State>, actions: seq<Action>, i: nat, j: nat)
    requires IsExecution(states, actions) && i <= j < |states|
    ensures |states[i].welcomes| <= |states[j].welcomes|
    decreases j
  {
    hide Step, Init;
    if i < j {
      WelcomesGrow(states, actions, i, j - 1);
      assert Step(states[j - 1], actions[j - 1], states[j]);
      WelcomesStep(states[j - 1], actions[j - 1], states[j]);
      SubsetSize(states[j - 1].welcomes, states[j].welcomes);
    }
  }

  lemma {:induction false} SecondCommit(states: seq<State>, actions: seq<Action>, i: nat)
    returns (p: Pid, k: nat, j: nat)
    requires IsExecution(states, actions) && i < |states| && |states[i].welcomes| >= 2
    ensures j < i && SeedsAgain(states, actions, p, k, j)
  {
    hide Step, Init;
    p, k, j := 0, 0, 0;
    if i == 0 {
      NoneAtFirst(states[0]);
    } else if |states[i - 1].welcomes| >= 2 {
      p, k, j := SecondCommit(states, actions, i - 1);
    } else {
      j := i - 1;
      assert Step(states[j], actions[j], states[j + 1]);
      WelcomesStep(states[j], actions[j], states[j + 1]);
      assert AddsWelcome(states[j], actions[j]);
      p := actions[j].p;
      k := CountedBefore(states, actions, p, j);
      SeedsExactlyWhenEmpty(states, actions, p, k, j);
    }
  }

  lemma NoneAtFirst(s: State)
    requires Init(s)
    ensures s.welcomes == {}
  {
  }

  // ---- it happens --------------------------------------------------------------------------

  /** The state after a list of actions, and whether each of them is possible in its turn. */
  ghost function Play(s: State, actions: seq<Action>): State
    decreases |actions|
  {
    if actions == [] then s else Play(Apply(s, actions[0]), actions[1..])
  }

  ghost predicate Playable(s: State, actions: seq<Action>)
    decreases |actions|
  {
    actions == [] || (Enabled(s, actions[0]) && Playable(Apply(s, actions[0]), actions[1..]))
  }

  lemma PlayOne(s: State, a: Action)
    ensures Play(s, [a]) == Apply(s, a) && (Playable(s, [a]) <==> Enabled(s, a))
  {
    hide Apply, Enabled;
    assert [a][1..] == [];
    assert Play(Apply(s, a), []) == Apply(s, a);
  }

  lemma {:induction false} PlayBoth(s: State, first: seq<Action>, rest: seq<Action>)
    ensures Play(s, first + rest) == Play(Play(s, first), rest)
    ensures Playable(s, first + rest) <==> Playable(s, first) && Playable(Play(s, first), rest)
    decreases |first|
  {
    hide Apply, Enabled;
    if first == [] {
      assert first + rest == rest;
    } else {
      assert (first + rest)[1..] == first[1..] + rest;
      PlayBoth(Apply(s, first[0]), first[1..], rest);
    }
  }

  /** One more action that is possible. */
  lemma PlayNext(s: State, actions: seq<Action>, a: Action)
    requires Playable(s, actions) && Enabled(Play(s, actions), a)
    ensures Playable(s, actions + [a]) && Play(s, actions + [a]) == Apply(Play(s, actions), a)
  {
    hide Apply, Enabled;
    PlayBoth(s, actions, [a]);
    PlayOne(Play(s, actions), a);
  }

  lemma {:induction false} PlayRuns(s: State, actions: seq<Action>) returns (states: seq<State>)
    requires Playable(s, actions)
    ensures |states| == |actions| + 1 && states[0] == s && states[|actions|] == Play(s, actions)
    ensures forall i | 0 <= i < |actions| :: Step(states[i], actions[i], states[i + 1])
    decreases |actions|
  {
    hide Apply, Enabled;
    if actions == [] {
      states := [s];
    } else {
      var rest := PlayRuns(Apply(s, actions[0]), actions[1..]);
      states := [s] + rest;
      forall i | 0 <= i < |actions|
        ensures Step(states[i], actions[i], states[i + 1])
      {
        if i > 0 { assert actions[i] == actions[1..][i - 1]; }
      }
    }
  }

  /** The welcome message, by the given author. */
  predicate IsWelcome(row: Message, author: Id, now: nat) {
    && row.title == "Welcome to the Kubernetes REST API"
    && row.content == "A sample message backed by FastAPI " + "and PostgreSQL on a kind cluster."
    && row.authorId == author && row.createdAt == now && row.version == 0
  }

  /** The message is the welcome, by an author with the system email. */
  predicate Welcomes(t: Tables, id: Id, now: nat) {
    && id in t.messages && IsWelcome(t.messages[id], t.messages[id].authorId, now)
    && t.messages[id].authorId in t.authors
    && t.authors[t.messages[id].authorId].email == "system@message-service.local"
  }

  lemma WelcomeIsBy(row: Message, author: Id, now: nat)
    requires IsWelcome(row, author, now)
    ensures row.authorId == author
  {
  }

  /** A replica starts and gets past the migration. */
  function MigrateRun(p: Pid, d: Draw): seq<Action> {
    [Start(p)] + [Advance(p, d)] + [Advance(p, d)] + [Advance(p, d)] + [Advance(p, d)]
  }

  lemma MigratesAlone(s: State, p: Pid, d: Draw)
    requires StageOf(s, p).Down? && MIGRATION_KEY !in s.locks
    ensures var t := Play(s, MigrateRun(p, d));
            && Playable(s, MigrateRun(p, d)) && StageOf(t, p).SeedWait? && t.schema
            && t.db == s.db && t.welcomes == s.welcomes && t.locks == s.locks
            && t.replicas == s.replicas[p := SeedWait]
  {
    hide SeedStep, ClientMay, Exec, Play, Playable;
    var a := Advance(p, d);
    PlayOne(s, Start(p));
    var s1 := Apply(s, Start(p));
    PlayNext(s, [Start(p)], a);
    var s2 := Apply(s1, a);
    PlayNext(s, [Start(p)] + [a], a);
    var s3 := Apply(s2, a);
    PlayNext(s, [Start(p)] + [a] + [a], a);
    var s4 := Apply(s3, a);
    PlayNext(s, [Start(p)] + [a] + [a] + [a], a);
    var s5 := Apply(s4, a);
    assert s5.locks == s.locks;
  }

  /** It seeds, and is up. */
  function SeedRun(p: Pid, d: Draw): seq<Action> {
    var a := Advance(p, d);
    [a] + [a] + [a] + [a] + [a] + [a]
  }

  lemma SeedsAlone(s: State, p: Pid, d: Draw)
    requires StageOf(s, p).SeedWait? && SEED_KEY !in s.locks && s.db.messages == map[]
    requires d.newId !in s.db.authors && d.newId !in s.welcomes
    ensures var t := Play(s, SeedRun(p, d));
            && Playable(s, SeedRun(p, d)) && StageOf(t, p).Up? && t.schema == s.schema
            && t.welcomes == s.welcomes + {d.newId} && t.locks == s.locks
            && t.db.messages.Keys == {d.newId}
            && s.db.authors.Keys <= t.db.authors.Keys <= s.db.authors.Keys + {d.newId}
            && EmailTaken(t.db.authors, SYSTEM_EMAIL) && t.replicas == s.replicas[p := Up]
            && Welcomes(t.db, d.newId, d.now)
  {
    hide Apply, Play, Playable, Enabled, EmailTaken, Welcomes, SeedRun;
    var s1, s2, s3, s4, s5, s6 := SeedStages(s, p, d);
    PlaySix(s, s1, s2, s3, s4, s5, s6, p, d);
  }

  lemma SeedStages(s: State, p: Pid, d: Draw)
    returns (s1: State, s2: State, s3: State, s4: State, s5: State, s6: State)
    requires StageOf(s, p).SeedWait? && SEED_KEY !in s.locks && s.db.messages == map[]
    requires d.newId !in s.db.authors && d.newId !in s.welcomes
    ensures var a := Advance(p, d);
            && Enabled(s, a) && s1 == Apply(s, a) && Enabled(s1, a) && s2 == Apply(s1, a)
            && Enabled(s2, a) && s3 == Apply(s2, a) && Enabled(s3, a) && s4 == Apply(s3, a)
            && Enabled(s4, a) && s5 == Apply(s4, a) && Enabled(s5, a) && s6 == Apply(s5, a)
    ensures StageOf(s6, p).Up? && s6.schema == s.schema && s6.locks == s.locks
    ensures s6.welcomes == s.welcomes + {d.newId} && s6.db.messages.Keys == {d.newId}
    ensures s.db.authors.Keys <= s6.db.authors.Keys <= s.db.authors.Keys + {d.newId}
    ensures EmailTaken(s6.db.authors, SYSTEM_EMAIL) && s6.replicas == s.replicas[p := Up]
    ensures Welcomes(s6.db, d.newId, d.now)
  {
    hide Apply, Enabled, EmailTaken, Welcomes, AuthorReady;
    s1, s2, s3 := SeedsAuthor(s, p, d);
    s4, s5, s6 := SeedsWelcome(s3, p, d);
    assert s6.locks == s.locks;
  }

  /** The seeder has made sure of the system author: it is there, or about to be. */
  ghost predicate AuthorReady(s: State, p: Pid, d: Draw) {
    && StageOf(s, p).SeedSelect? && (exists a :: IsSystemAuthor(s.db, StageOf(s, p).added, a))
    && d.newId !in s.db.authors
    && if EmailTaken(s.db.authors, SYSTEM_EMAIL) then StageOf(s, p).added.None?
       else StageOf(s, p).added == Some(Added(d.newId, Author("system", SYSTEM_EMAIL, d.now)))
  }

  lemma SeedsAuthor(s: State, p: Pid, d: Draw) returns (s1: State, s2: State, s3: State)
    requires StageOf(s, p).SeedWait? && SEED_KEY !in s.locks && s.db.messages == map[] && d.newId !in s.db.authors
    ensures var a := Advance(p, d);
            && Enabled(s, a) && s1 == Apply(s, a) && Enabled(s1, a) && s2 == Apply(s1, a)
            && Enabled(s2, a) && s3 == Apply(s2, a)
    ensures AuthorReady(s3, p, d) && s3.locks == s.locks[SEED_KEY := p] && OnlyMoved(s.(locks := s3.locks), p, s3)
  {
    hide Apply, Enabled, EmailTaken, IsSystemAuthor;
    s1 := SeedTakes(s, p, d);
    s2 := SeedFindsNone(s1, p, d);
    s3 := SeedPutsAuthor(s2, p, d);
  }

  lemma SeedsWelcome(s: State, p: Pid, d: Draw) returns (s1: State, s2: State, s3: State)
    requires AuthorReady(s, p, d) && s.db.messages == map[] && d.newId !in s.welcomes
    ensures var a := Advance(p, d);
            && Enabled(s, a) && s1 == Apply(s, a) && Enabled(s1, a) && s2 == Apply(s1, a)
            && Enabled(s2, a) && s3 == Apply(s2, a)
    ensures s3.locks == s.locks - {SEED_KEY} && s3.schema == s.schema && s3.replicas == s.replicas[p := Up]
    ensures s3.welcomes == s.welcomes + {d.newId} && s3.db.messages.Keys == {d.newId}
    ensures s.db.authors.Keys <= s3.db.authors.Keys <= s.db.authors.Keys + {d.newId}
    ensures EmailTaken(s3.db.authors, SYSTEM_EMAIL) && Welcomes(s3.db, d.newId, d.now)
  {
    hide Apply, Enabled, EmailTaken, IsSystemAuthor, IsWelcome, Welcomes, Referable;
    s1 := SeedPicks(s, p, d);
    s2 := SeedPutsWelcome(s1, p, d);
    WelcomeIsBy(StageOf(s2, p).welcome.value.row, StageOf(s1, p).author, d.now);
    s3 := SeedDone(s2, p, d);
  }

  lemma PlaySix(
    s: State, s1: State, s2: State, s3: State, s4: State, s5: State, s6: State, p: Pid, d: Draw)
    requires var a := Advance(p, d);
             && Enabled(s, a) && s1 == Apply(s, a) && Enabled(s1, a) && s2 == Apply(s1, a)
             && Enabled(s2, a) && s3 == Apply(s2, a) && Enabled(s3, a) && s4 == Apply(s3, a)
             && Enabled(s4, a) && s5 == Apply(s4, a) && Enabled(s5, a) && s6 == Apply(s5, a)
    ensures Playable(s, SeedRun(p, d)) && Play(s, SeedRun(p, d)) == s6
  {
    hide Apply, Play, Playable, Enabled;
    var a := Advance(p, d);
    PlayOne(s, a);
    PlayNext(s, [a], a);
    PlayNext(s, [a] + [a], a);
    PlayNext(s, [a] + [a] + [a], a);
    PlayNext(s, [a] + [a] + [a] + [a], a);
    PlayNext(s, [a] + [a] + [a] + [a] + [a], a);
  }

  /** The state has changed in the stage of one replica only. */
  predicate OnlyMoved(s: State, p: Pid, t: State) {
    && t.db == s.db && t.schema == s.schema && t.locks == s.locks && t.welcomes == s.welcomes
    && p in t.replicas && t.replicas == s.replicas[p := t.replicas[p]]
  }

  lemma SeedTakes(s: State, p: Pid, d: Draw) returns (t: State)
    requires StageOf(s, p).SeedWait? && SEED_KEY !in s.locks
    ensures Enabled(s, Advance(p, d)) && t == Apply(s, Advance(p, d)) && StageOf(t, p).SeedCount?
    ensures t.locks == s.locks[SEED_KEY := p] && OnlyMoved(s.(locks := t.locks), p, t)
  {
    t := Apply(s, Advance(p, d));
  }

  lemma SeedFindsNone(s: State, p: Pid, d: Draw) returns (t: State)
    requires StageOf(s, p).SeedCount? && s.db.messages == map[]
    ensures Enabled(s, Advance(p, d)) && t == Apply(s, Advance(p, d)) && StageOf(t, p).SeedAuthor? && OnlyMoved(s, p, t)
  {
    t := Apply(s, Advance(p, d));
  }

  lemma SeedPutsAuthor(s: State, p: Pid, d: Draw) returns (t: State)
    requires StageOf(s, p).SeedAuthor? && d.newId !in s.db.authors
    ensures Enabled(s, Advance(p, d)) && t == Apply(s, Advance(p, d)) && StageOf(t, p).SeedSelect? && OnlyMoved(s, p, t)
    ensures exists a :: IsSystemAuthor(t.db, StageOf(t, p).added, a)
    ensures if EmailTaken(s.db.authors, SYSTEM_EMAIL) then StageOf(t, p).added.None?
            else StageOf(t, p).added == Some(Added(d.newId, Author("system", SYSTEM_EMAIL, d.now)))
  {
    t := Apply(s, Advance(p, d));
    if EmailTaken(s.db.authors, SYSTEM_EMAIL) {
      var a :| a in s.db.authors && s.db.authors[a].email == SYSTEM_EMAIL;
      assert IsSystemAuthor(t.db, StageOf(t, p).added, a);
    } else {
      assert IsSystemAuthor(t.db, StageOf(t, p).added, d.newId);
    }
  }

  lemma SeedPicks(s: State, p: Pid, d: Draw) returns (t: State)
    requires StageOf(s, p).SeedSelect? && exists a :: IsSystemAuthor(s.db, StageOf(s, p).added, a)
    ensures Enabled(s, Advance(p, d)) && t == Apply(s, Advance(p, d)) && StageOf(t, p).SeedInsert? && OnlyMoved(s, p, t)
    ensures Referable(t.db, StageOf(t, p).added, StageOf(t, p).author) && StageOf(t, p).added == StageOf(s, p).added
    ensures IsSystemAuthor(t.db, StageOf(t, p).added, StageOf(t, p).author)
  {
    t := Apply(s, Advance(p, d));
  }

  lemma SeedPutsWelcome(s: State, p: Pid, d: Draw) returns (t: State)
    requires StageOf(s, p).SeedInsert? && Referable(s.db, StageOf(s, p).added, StageOf(s, p).author)
    requires d.newId !in s.db.messages && d.newId !in s.welcomes
    ensures Enabled(s, Advance(p, d)) && t == Apply(s, Advance(p, d)) && StageOf(t, p).SeedCommit? && OnlyMoved(s, p, t)
    ensures StageOf(t, p).added == StageOf(s, p).added
    ensures StageOf(t, p).welcome.Some? && StageOf(t, p).welcome.value.id == d.newId
    ensures IsWelcome(StageOf(t, p).welcome.value.row, StageOf(s, p).author, d.now)
  {
    t := Apply(s, Advance(p, d));
  }

  lemma SeedDone(s: State, p: Pid, d: Draw) returns (t: State)
    requires StageOf(s, p).SeedCommit? && StageOf(s, p).welcome.Some? && StageOf(s, p).welcome.value.id == d.newId
    requires if StageOf(s, p).added.None? then EmailTaken(s.db.authors, SYSTEM_EMAIL)
             else StageOf(s, p).added.value.id == d.newId && StageOf(s, p).added.value.row.email == SYSTEM_EMAIL
    ensures Enabled(s, Advance(p, d)) && t == Apply(s, Advance(p, d)) && StageOf(t, p).Up?
    ensures t.locks == s.locks - {SEED_KEY} && t.schema == s.schema && t.replicas == s.replicas[p := Up]
    ensures t.welcomes == s.welcomes + {d.newId} && t.db.messages.Keys == s.db.messages.Keys + {d.newId}
    ensures s.db.authors.Keys <= t.db.authors.Keys <= s.db.authors.Keys + {d.newId}
    ensures EmailTaken(t.db.authors, SYSTEM_EMAIL)
    ensures IsSystemAuthor(s.db, StageOf(s, p).added, StageOf(s, p).welcome.value.row.authorId)
            && (StageOf(s, p).added.Some? ==> StageOf(s, p).added.value.id !in s.db.authors)
            && IsWelcome(StageOf(s, p).welcome.value.row, StageOf(s, p).welcome.value.row.authorId, d.now) ==>
              Welcomes(t.db, d.newId, d.now)
  {
    t := Apply(s, Advance(p, d));
    var added := StageOf(s, p).added;
    if added.Some? { assert t.db.authors[added.value.id].email == SYSTEM_EMAIL; }
  }

  /** From any state in which nobody holds a lock and the table is empty, a replica that starts adds
      one more welcome message, whether or not the system author is still there. */
  lemma StartsAndSeeds(s: State, p: Pid, d: Draw)
    requires StageOf(s, p).Down? && s.locks == map[] && s.db.messages == map[]
    requires d.newId !in s.db.authors && d.newId !in s.welcomes
    ensures var run := MigrateRun(p, d) + SeedRun(p, d);
            var t := Play(s, run);
            && Playable(s, run) && StageOf(t, p).Up? && t.schema && t.locks == map[]
            && t.welcomes == s.welcomes + {d.newId} && t.db.messages.Keys == {d.newId}
            && t.db.authors.Keys <= s.db.authors.Keys + {d.newId}
            && EmailTaken(t.db.authors, SYSTEM_EMAIL) && t.replicas == s.replicas[p := Up]
            && Welcomes(t.db, d.newId, d.now)
  {
    hide Welcomes, Play, Playable, MigrateRun, SeedRun, EmailTaken;
    MigratesAlone(s, p, d);
    var m := Play(s, MigrateRun(p, d));
    SeedsAlone(m, p, d);
    PlayBoth(s, MigrateRun(p, d), SeedRun(p, d));
  }

  /** A client deletes the one message there is. */
  lemma ClientEmpties(s: State, m: Id)
    requires s.schema && s.db.messages.Keys == {m} && forall p | p in s.replicas :: s.replicas[p].Up?
    ensures var a := Client(DeleteMessage(m), Draw(0, 0));
            && Enabled(s, a)
            && Apply(s, a) == s.(db := Apply(s, a).db)
            && Apply(s, a).db.messages == map[] && Apply(s, a).db.authors == s.db.authors
  {
    var t := Apply(s, Client(DeleteMessage(m), Draw(0, 0)));
    assert t.db.messages.Keys == {};
  }

  /** "Exactly one welcome message is created" fails: one replica seeds, a client deletes the
      message, another replica starts, and there has been a second welcome message. */
  lemma SecondWelcomeHappens() returns (states: seq<State>, actions: seq<Action>)
    ensures IsExecution(states, actions)
    ensures |states[|actions|].welcomes| == 2
  {
    var s0 := State(Tables(map[], map[]), false, map[], map[], 0, {}, false);
    var d1, d2 := Draw(0, 0), Draw(1, 0);
    hide Play, Playable, MigrateRun, SeedRun, Apply, Enabled;
    var first, second := MigrateRun(0, d1) + SeedRun(0, d1), MigrateRun(1, d2) + SeedRun(1, d2);
    StartsAndSeeds(s0, 0, d1);
    var s1 := Play(s0, first);
    var empty := Client(DeleteMessage(0), Draw(0, 0));
    ClientEmpties(s1, 0);
    PlayNext(s0, first, empty);
    var s2 := Play(s0, first + [empty]);
    StartsAndSeeds(s2, 1, d2);
    PlayBoth(s0, first + [empty], second);
    actions := first + [empty] + second;
    states := PlayRuns(s0, actions);
  }
}
