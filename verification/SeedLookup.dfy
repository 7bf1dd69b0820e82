/** Whether a seeder finds the system author it has just made sure of: exactly unless a client takes
    the author away between two of its statements. */
module SeedLookup {
  import opened Validation
  import opened Relational
  import opened Startup
  import opened Reseeding

  /** The stages whose statement looks an author up. */
  predicate LooksUp(st: Stage) {
    st.SeedSelect? || st.SeedInsert?
  }

  /** The statement finds what it looks for. */
  ghost predicate Finds(t: Tables, st: Stage) {
    && (st.SeedSelect? ==> exists a :: IsSystemAuthor(t, st.added, a))
    && (st.SeedInsert? ==> Referable(t, st.added, st.author))
  }

  /** A client deletes the author, or the one with the system email, or gives that one another
      email. */
  predicate TakesAway(s: State, a: Action, st: Stage) {
    && a.Client?
    && (a.request.DeleteAuthor? || (a.request.UpdateAuthor? && a.request.newEmail.Some? && st.SeedSelect?))
    && a.request.id in s.db.authors
    && if st.SeedInsert? then a.request.id == st.author
       else st.SeedSelect? && s.db.authors[a.request.id].email == SYSTEM_EMAIL
  }

  // ---- entering a look-up ------------------------------------------------------------------

  /** The replica's own last statement left it in the stage. */
  predicate Enters(states: seq<State>, actions: seq<Action>, p: Pid, k: nat, i: nat)
    requires |states| == |actions| + 1
  {
    && k < i < |states| && actions[k].Advance? && actions[k].p == p
    && forall l | k < l <= i :: StageOf(states[l], p) == StageOf(states[i], p)
  }

  lemma OwnFinds(s: State, a: Action, s': State)
    requires Step(s, a, s') && !a.Client? && LooksUp(StageOf(s', a.p))
    ensures a.Advance? && Finds(s'.db, StageOf(s', a.p))
  {
    hide Seeded;
    if a.Advance? && StageOf(s, a.p).SeedAuthor? {
      var st := StageOf(s', a.p);
      if EmailTaken(s.db.authors, SYSTEM_EMAIL) {
        var x :| x in s.db.authors && s.db.authors[x].email == SYSTEM_EMAIL;
        assert IsSystemAuthor(s'.db, st.added, x);
      } else {
        assert IsSystemAuthor(s'.db, st.added, a.draw.newId);
      }
    }
  }

  /** While a replica waits to look up, only a client can take the author away. */
  lemma OthersFind(s: State, a: Action, s': State, p: Pid)
    requires LocksOk(s) && Step(s, a, s') && (a.Client? || a.p != p)
    requires var st := StageOf(s, p); LooksUp(st) && Finds(s.db, st) && !Finds(s'.db, st)
    ensures TakesAway(s, a, StageOf(s, p))
  {
    hide LocksOk, Finds, Exec, SeedStep, MigrateStep, Undisturbed;
    if a.Client? {
      ClientTakesAway(s, StageOf(s, p), a);
    } else {
      SeedersApart(s, a, s', p);
    }
  }

  lemma SeedersApart(s: State, a: Action, s': State, p: Pid)
    requires LocksOk(s) && Step(s, a, s') && !a.Client? && a.p != p && LooksUp(StageOf(s, p))
    ensures s'.db == s.db
  {
    if StageOf(s, a.p).SeedCommit? {
      OneHolder(s, a.p, p);
    }
    hide LocksOk, IsSystemAuthor, Referable, Seeded, EmailTaken;
  }

  lemma ClientTakesAway(s: State, st: Stage, a: Action)
    requires a.Client? && Fresh(s.db, a.request, a.draw)
    requires LooksUp(st) && Finds(s.db, st) && !Finds(Exec(s.db, a.request, a.draw).tables, st)
    ensures TakesAway(s, a, st)
  {
    var t, t' := s.db, Exec(s.db, a.request, a.draw).tables;
    if st.SeedSelect? {
      var x :| IsSystemAuthor(t, st.added, x);
      assert !IsSystemAuthor(t', st.added, x);
      hide Finds;
      OwnRowStays(t, t', st.added, x);
      AuthorLost(t, a.request, a.draw, x);
    } else {
      hide Finds;
      AuthorLost(t, a.request, a.draw, st.author);
    }
  }

  lemma OwnRowStays(t: Tables, t': Tables, added: Option<Added<Author>>, x: Id)
    requires IsSystemAuthor(t, added, x) && !IsSystemAuthor(t', added, x)
    ensures x in t.authors && t.authors[x].email == SYSTEM_EMAIL
    ensures x in t'.authors ==> t'.authors[x].email != SYSTEM_EMAIL
  {
  }

  lemma AuthorLost(t: Tables, r: Request, d: Draw, x: Id)
    requires x in t.authors && Fresh(t, r, d)
    ensures var t' := Exec(t, r, d).tables;
            && (x !in t'.authors ==> r.DeleteAuthor? && r.id == x)
            && (x in t'.authors && t'.authors[x].email != t.authors[x].email ==>
                  r.UpdateAuthor? && r.newEmail.Some? && r.id == x)
  {
    hide EmailTaken, Referenced, Storable, StorableOption, Load;
  }

  // ---- when a look-up fails ----------------------------------------------------------------

  /** A client took the author away in the l-th step, and nobody brought it back up to the i-th
      state. */
  ghost predicate Lost(states: seq<State>, actions: seq<Action>, st: Stage, l: nat, i: nat)
    requires |states| == |actions| + 1 && l < i < |states|
  {
    && Finds(states[l].db, st) && TakesAway(states[l], actions[l], st)
    && forall m | l < m <= i :: !Finds(states[m].db, st)
  }

  lemma AtFirstDown(s: State, p: Pid)
    requires Init(s)
    ensures !LooksUp(StageOf(s, p))
  {
  }

  /** The replica's last own step before it looks up. */
  lemma {:induction false} Entered(states: seq<State>, actions: seq<Action>, p: Pid, i: nat) returns (k: nat)
    requires IsExecution(states, actions) && i < |states| && LooksUp(StageOf(states[i], p))
    ensures Enters(states, actions, p, k, i) && Finds(states[k + 1].db, StageOf(states[i], p))
    decreases i
  {
    hide LocksOk, DataOk, Step, Init, LooksUp, Finds;
    k := 0;
    if i == 0 {
      AtFirstDown(states[0], p);
    } else {
      StepInRun(states, actions, i - 1);
      var a := actions[i - 1];
      if !a.Client? && a.p == p {
        OwnFinds(states[i - 1], a, states[i]);
        k := i - 1;
      } else {
        OthersStay(states[i - 1], a, states[i], p);
        k := Entered(states, actions, p, i - 1);
      }
    }
  }

  /** What was found at first and is not found now was lost in between. */
  lemma {:induction false} LostBetween(states: seq<State>, actions: seq<Action>, p: Pid, k: nat, i: nat)
    returns (l: nat)
    requires IsExecution(states, actions) && Enters(states, actions, p, k, i) && LooksUp(StageOf(states[i], p))
    requires Finds(states[k + 1].db, StageOf(states[i], p)) && !Finds(states[i].db, StageOf(states[i], p))
    ensures k < l < i && Lost(states, actions, StageOf(states[i], p), l, i)
    decreases i
  {
    hide LocksOk, DataOk, Step, Init, LooksUp, Finds, TakesAway;
    StepInRun(states, actions, i - 1);
    var s, a, s', st := states[i - 1], actions[i - 1], states[i], StageOf(states[i], p);
    if Finds(s.db, st) {
      l := i - 1;
      if !a.Client? && a.p == p { OwnFinds(s, a, s'); }
      OthersFind(s, a, s', p);
    } else {
      l := LostBetween(states, actions, p, k, i - 1);
    }
  }

  /** A seeder's look-up fails exactly when a client took the author away after the seeder's last
      own statement and nobody brought it back: between its insert of the system author and its
      look-up by email, or between that and its insert of the message. */
  lemma LookupFailsExactly(states: seq<State>, actions: seq<Action>, p: Pid, i: nat) returns (k: nat)
    requires IsExecution(states, actions) && i < |states| && LooksUp(StageOf(states[i], p))
    ensures Enters(states, actions, p, k, i)
    ensures !Finds(states[i].db, StageOf(states[i], p)) <==>
            exists l | k < l < i :: Lost(states, actions, StageOf(states[i], p), l, i)
  {
    hide Step, Init, LooksUp, Finds, TakesAway;
    k := Entered(states, actions, p, i);
    if !Finds(states[i].db, StageOf(states[i], p)) {
      var l := LostBetween(states, actions, p, k, i);
    }
  }

  /** So as long as no client takes an author away from a seeder that is about to look it up,
      every look-up finds it: no seeding transaction fails by itself. */
  lemma SeedingFindsAuthor(states: seq<State>, actions: seq<Action>, p: Pid, i: nat)
    requires IsExecution(states, actions) && i < |states| && LooksUp(StageOf(states[i], p))
    requires forall l | 0 <= l < i && LooksUp(StageOf(states[l], p)) ::
               !TakesAway(states[l], actions[l], StageOf(states[l], p))
    ensures Finds(states[i].db, StageOf(states[i], p))
  {
    hide Step, Init, LooksUp, Finds, TakesAway;
    var k := LookupFailsExactly(states, actions, p, i);
    forall l | k < l < i
      ensures !Lost(states, actions, StageOf(states[i], p), l, i)
    {
      assert StageOf(states[l], p) == StageOf(states[i], p);
    }
  }

  // ---- it happens --------------------------------------------------------------------------

  /** The client takes the only author away. */
  lemma ClientTakes(s: State, x: Id)
    requires s.schema && s.db.messages == map[] && s.db.authors.Keys == {x}
    requires forall p | p in s.replicas :: s.replicas[p].Up? || s.replicas[p] == SeedSelect(None)
    ensures var a := Client(DeleteAuthor(x), Draw(0, 0));
            && Enabled(s, a) && Apply(s, a).db == Tables(map[], map[]) && Apply(s, a).replicas == s.replicas
  {
    var t := Exec(s.db, DeleteAuthor(x), Draw(0, 0)).tables;
    assert t.authors.Keys == {};
  }

  lemma SelectFails(s: State, p: Pid, d: Draw)
    requires StageOf(s, p) == SeedSelect(None) && s.db.authors == map[]
    ensures Enabled(s, Advance(p, d)) && StageOf(Apply(s, Advance(p, d)), p) == Down
  {
  }

  lemma AuthorStays(s: State, p: Pid, d: Draw)
    requires StageOf(s, p).SeedAuthor? && d.newId !in s.db.authors && EmailTaken(s.db.authors, SYSTEM_EMAIL)
    ensures Enabled(s, Advance(p, d)) && Apply(s, Advance(p, d)) == Goto(s, p, SeedSelect(None))
  {
  }

  /** A replica seeds, a client deletes the message, another replica starts and makes sure of the
      system author, a client deletes that too, and the replica's seeding fails. */
  lemma LookupFails() returns (states: seq<State>, actions: seq<Action>)
    ensures IsExecution(states, actions) && |actions| >= 2
    ensures var n := |actions|;
            && StageOf(states[n - 1], 1) == SeedSelect(None) && !Finds(states[n - 1].db, SeedSelect(None))
            && actions[n - 1] == Advance(1, Draw(1, 0)) && StageOf(states[n], 1) == Down
  {
    var s0 := State(Tables(map[], map[]), false, map[], map[], 0, {}, false);
    var next := Advance(1, Draw(1, 0));
    hide Play, Playable, Apply, Enabled, EmailTaken;
    var run6 := AuthorIsSure(s0);
    var s6 := Play(s0, run6);
    ClientTakes(s6, 0);
    PlayNext(s0, run6, Client(DeleteAuthor(0), Draw(0, 0)));
    var run7 := run6 + [Client(DeleteAuthor(0), Draw(0, 0))];
    var s7 := Play(s0, run7);
    SelectFails(s7, 1, Draw(1, 0));
    PlayNext(s0, run7, next);
    actions := run7 + [next];
    states := PlayRuns(s0, actions);
    PlayPrefix(s0, actions, states, run7);
  }

  /** The first replica has seeded, the message is gone, and the second has made sure of the author. */
  lemma AuthorIsSure(s0: State) returns (run: seq<Action>)
    requires s0 == State(Tables(map[], map[]), false, map[], map[], 0, {}, false)
    ensures Playable(s0, run)
    ensures var s := Play(s0, run);
            && s.schema && s.db.messages == map[] && s.db.authors.Keys == {0}
            && s.replicas == map[0 := Up, 1 := SeedSelect(None)]
  {
    var next := Advance(1, Draw(1, 0));
    hide Play, Playable, Apply, Enabled, EmailTaken;
    var run3 := SecondStarts(s0);
    var s3 := Play(s0, run3);
    var s4 := SeedTakes(s3, 1, Draw(1, 0));
    PlayNext(s0, run3, next);
    var s5 := SeedFindsNone(s4, 1, Draw(1, 0));
    PlayNext(s0, run3 + [next], next);
    AuthorStays(s5, 1, Draw(1, 0));
    PlayNext(s0, run3 + [next] + [next], next);
    run := run3 + [next] + [next] + [next];
  }

  lemma SecondStarts(s0: State) returns (run: seq<Action>)
    requires s0 == State(Tables(map[], map[]), false, map[], map[], 0, {}, false)
    ensures Playable(s0, run)
    ensures var s := Play(s0, run);
            && s.schema && s.db.messages == map[] && s.db.authors.Keys == {0} && s.locks == map[]
            && EmailTaken(s.db.authors, SYSTEM_EMAIL) && s.replicas == map[0 := Up, 1 := SeedWait]
  {
    var d1, d2 := Draw(0, 0), Draw(1, 0);
    hide Play, Playable, MigrateRun, SeedRun, Apply, Enabled, Welcomes;
    StartsAndSeeds(s0, 0, d1);
    var run1 := MigrateRun(0, d1) + SeedRun(0, d1);
    var s1 := Play(s0, run1);
    var empty := Client(DeleteMessage(0), Draw(0, 0));
    ClientEmpties(s1, 0);
    PlayNext(s0, run1, empty);
    var s2 := Play(s0, run1 + [empty]);
    MigratesAlone(s2, 1, d2);
    PlayBoth(s0, run1 + [empty], MigrateRun(1, d2));
    run := run1 + [empty] + MigrateRun(1, d2);
  }

  lemma {:induction false} PlayPrefix(s: State, actions: seq<Action>, states: seq<State>, first: seq<Action>)
    requires |states| == |actions| + 1 && states[0] == s && first <= actions
    requires forall i | 0 <= i < |actions| :: Step(states[i], actions[i], states[i + 1])
    ensures states[|first|] == Play(s, first)
    decreases |first|
  {
    hide Apply, Enabled;
    if first != [] {
      assert actions[0] == first[0] && states[1] == Apply(s, first[0]);
      forall i | 0 <= i < |actions[1..]|
        ensures Step(states[1..][i], actions[1..][i], states[1..][i + 1])
      {
        assert Step(states[i + 1], actions[i + 1], states[i + 2]);
      }
      PlayPrefix(states[1], actions[1..], states[1..], first[1..]);
    }
  }
}
