/** Who waits for whom: when a request cannot go on, which requests can wait for each other in a
    circle, and what becomes of the others when the database breaks the circle. */
module Deadlock {
  import opened Validation
  import opened Relational
  import opened Sets
  import opened Protocol
  import opened ProtocolInvariant
  import opened ProtocolCommits
  import opened RequestTheorems

  // ---- waiting -----------------------------------------------------------------------------

  /** The pending statement needs the lock for itself. */
  predicate Wants(s: State, st: Stage, k: Lock) {
    match st
    case PatchUpdate(id, edit, _) => StorableEdit(edit) && UpdateMatches(s, id, edit) && k == MessageRow(id)
    case DropRow(id) => id in s.db.messages && k == MessageRow(id)
    case AddIndex(_, a) => k == EmailEntry(a.email)
    case EditAuthor(id, name, email) =>
      && StorableOption(name) && StorableOption(email) && id in s.db.authors
      && k in EditLocks(id, s.db.authors[id], Changed(s.db.authors[id], name, email))
    case EditIndex(_, name, email, before) => k in NewEntry(before, Changed(before, name, email))
    case RemoveAuthor(id) => id in s.db.authors && k in RemoveLocks(id, s.db.authors[id])
    case _ => false
  }

  /** The pending statement needs a share of the lock. */
  predicate WantsShare(st: Stage, k: Lock) {
    st.PostInsert? && Storable(st.title) && Storable(st.content) && k == AuthorKey(st.author.id)
  }

  /** The foreign-key check of a delete waits for the deletes of the messages in its way. */
  predicate AwaitsDrop(s: State, st: Stage, other: Stage) {
    && st.RemoveCheck? && !CanCheck(s, st.id)
    && other.DropCommit? && other.found && other.id in s.db.messages
    && s.db.messages[other.id].authorId == st.id
  }

  /** One process waits for another. */
  ghost predicate Blocks(s: State, p: Pid, q: Pid) {
    && p in s.procs && q in s.procs && p != q
    && (|| AwaitsDrop(s, s.procs[p], s.procs[q])
        || exists k :: Conflict(s, s.procs[p], s.procs[q], k))
  }

  predicate Conflict(s: State, st: Stage, other: Stage, k: Lock) {
    || (Wants(s, st, k) && (k in Exclusive(other) || k in Shared(other)))
    || (WantsShare(st, k) && k in Exclusive(other))
  }

  /** The id is one that no row ever had and no open transaction has locked. */
  predicate Unused(s: State, d: Draw) {
    && d.newId !in s.history && (forall a | a in s.seen :: a.id != d.newId)
    && forall p | p in s.procs ::
         MessageRow(d.newId) !in Exclusive(s.procs[p]) && AuthorRow(d.newId) !in Exclusive(s.procs[p])
  }

  function LockedIds(st: Stage): set<nat> {
    match st
    case PostCommit(id, _, _) => {id}
    case PatchReload(id, _, _) => {id}
    case PatchCommit(id, _, _, _) => {id}
    case DropCommit(id, _) => {id}
    case AddIndex(id, _) => {id}
    case AddCommit(id, _) => {id}
    case EditIndex(id, _, _, _) => {id}
    case EditCommit(id, _, _, _) => {id}
    case RemoveCheck(id, _) => {id}
    case RemoveCommit(id, _) => {id}
    case _ => {}
  }

  lemma LocksAreOnIds(st: Stage, id: Id)
    requires id !in LockedIds(st)
    ensures MessageRow(id) !in Exclusive(st) && AuthorRow(id) !in Exclusive(st)
  {
    hide Changed;
  }

  /** There is always an id left to draw, so that the results below hold in every state. */
  lemma UnusedDraw(s: State) returns (d: Draw)
    ensures Unused(s, d)
  {
    var locked := set p, id | p in s.procs && id in LockedIds(s.procs[p]) :: id;
    var seen := set a | a in s.seen :: a.id;
    var n := FreshId(s.history.Keys + seen + locked);
    forall p | p in s.procs
      ensures MessageRow(n) !in Exclusive(s.procs[p]) && AuthorRow(n) !in Exclusive(s.procs[p])
    {
      LocksAreOnIds(s.procs[p], n);
    }
    d := Draw(n, 0);
  }

  // ---- a request can go on iff it waits for nobody -----------------------------------------

  /** Every lock the pending statement needs is to be had. */
  ghost predicate Ready(s: State, p: Pid) {
    var st := StageOf(s, p);
    && (forall q | q in s.procs && q != p :: Unlocked(s, st, s.procs[q]))
    && (st.RemoveCheck? ==> CanCheck(s, st.id))
  }

  ghost predicate Unlocked(s: State, st: Stage, other: Stage) {
    forall k :: !Conflict(s, st, other, k)
  }

  lemma ReadyIsUnblocked(s: State, p: Pid)
    requires p in s.procs
    ensures Ready(s, p) <==> forall q :: !Blocks(s, p, q)
  {
    hide Conflict;
    var st := s.procs[p];
    forall q | q in s.procs && q != p
      ensures Unlocked(s, st, s.procs[q]) <==> !exists k :: Conflict(s, st, s.procs[q], k)
    {
    }
    if st.RemoveCheck? && !CanCheck(s, st.id) {
      DropInTheWay(s, p);
    }
    hide Unlocked, CanCheck;
    if Ready(s, p) {
      forall q
        ensures !Blocks(s, p, q)
      {
      }
    }
    if forall q :: !Blocks(s, p, q) {
      forall q | q in s.procs && q != p
        ensures Unlocked(s, st, s.procs[q])
      {
        assert !Blocks(s, p, q);
      }
    }
  }

  lemma DropInTheWay(s: State, p: Pid)
    requires p in s.procs && s.procs[p].RemoveCheck? && !CanCheck(s, s.procs[p].id)
    ensures exists q :: Blocks(s, p, q)
  {
    var id := s.procs[p].id;
    var m :| m in s.db.messages && s.db.messages[m].authorId == id;
    assert BeingDropped(s, m);
    var q :| q in s.procs && s.procs[q] == DropCommit(m, true);
    assert AwaitsDrop(s, s.procs[p], s.procs[q]);
    assert Blocks(s, p, q);
  }

  lemma ReadyLocks(s: State, p: Pid, k: Lock)
    requires Ready(s, p)
    ensures Wants(s, StageOf(s, p), k) ==> Free(s, p, k) && Unshared(s, p, k)
    ensures WantsShare(StageOf(s, p), k) ==> Free(s, p, k)
  {
    hide Wants, WantsShare, Exclusive, Shared;
    forall q | q in s.procs && q != p
      ensures !Conflict(s, StageOf(s, p), s.procs[q], k)
    {
      assert Unlocked(s, StageOf(s, p), s.procs[q]);
    }
  }

  lemma LocksReady(s: State, p: Pid)
    requires forall k | Wants(s, StageOf(s, p), k) :: Free(s, p, k) && Unshared(s, p, k)
    requires forall k | WantsShare(StageOf(s, p), k) :: Free(s, p, k)
    requires StageOf(s, p).RemoveCheck? ==> CanCheck(s, StageOf(s, p).id)
    ensures Ready(s, p)
  {
    hide Wants, WantsShare, Exclusive, Shared, CanCheck;
  }

  lemma OnlyKeysAreShared(s: State, p: Pid, k: Lock)
    requires !k.AuthorKey?
    ensures Unshared(s, p, k)
  {
  }

  lemma ReadyAdvances(s: State, p: Pid, d: Draw)
    requires InFlight(s, p) && Unused(s, d) && Ready(s, p)
    ensures CanAdvance(s, p, d)
  {
    forall k
      ensures Wants(s, StageOf(s, p), k) ==> Free(s, p, k) && Unshared(s, p, k)
      ensures WantsShare(StageOf(s, p), k) ==> Free(s, p, k)
    {
      ReadyLocks(s, p, k);
    }
    hide Ready, Free, Unshared, Changed, UpdateMatches, StorableEdit, StorableOption, Storable;
    UnusedIsFree(s, p, d);
    NeededLocks(s, StageOf(s, p));
  }

  /** What each waiting statement needs. */
  lemma NeededLocks(s: State, st: Stage)
    ensures st.PatchUpdate? && StorableEdit(st.edit) && UpdateMatches(s, st.id, st.edit) ==>
              Wants(s, st, MessageRow(st.id))
    ensures st.DropRow? && st.id in s.db.messages ==> Wants(s, st, MessageRow(st.id))
    ensures st.AddIndex? ==> Wants(s, st, EmailEntry(st.added.email))
    ensures st.PostInsert? && Storable(st.title) && Storable(st.content) ==> WantsShare(st, AuthorKey(st.author.id))
    ensures st.EditIndex? ==>
              var after := Changed(st.before, st.newName, st.newEmail);
              st.before.email != after.email ==> Wants(s, st, EmailEntry(after.email))
    ensures st.EditAuthor? && StorableOption(st.newName) && StorableOption(st.newEmail) && st.id in s.db.authors ==>
              var before := s.db.authors[st.id];
              var after := Changed(before, st.newName, st.newEmail);
              && (forall k | k in EditLocks(st.id, before, after) :: Wants(s, st, k))
              && (before.email != after.email ==> Wants(s, st, AuthorKey(st.id)))
    ensures st.RemoveAuthor? && st.id in s.db.authors ==>
              && (forall k | k in RemoveLocks(st.id, s.db.authors[st.id]) :: Wants(s, st, k))
              && Wants(s, st, AuthorKey(st.id))
  {
    hide Changed, UpdateMatches, StorableEdit, StorableOption, Storable;
  }

  lemma UnusedIsFree(s: State, p: Pid, d: Draw)
    requires Unused(s, d)
    ensures Free(s, p, MessageRow(d.newId)) && Free(s, p, AuthorRow(d.newId))
  {
    hide Exclusive;
  }

  lemma AdvancesIsReady(s: State, p: Pid, d: Draw)
    requires InFlight(s, p) && CanAdvance(s, p, d)
    ensures Ready(s, p)
  {
    forall k
      ensures Wants(s, StageOf(s, p), k) ==> Free(s, p, k) && Unshared(s, p, k)
      ensures WantsShare(StageOf(s, p), k) ==> Free(s, p, k)
    {
      if !k.AuthorKey? { OnlyKeysAreShared(s, p, k); }
      hide Free, Unshared, Changed, UpdateMatches, StorableEdit, StorableOption, Storable;
    }
    hide Free, Unshared, Wants, WantsShare, Changed, UpdateMatches, StorableEdit, StorableOption, Storable;
    LocksReady(s, p);
  }

  /** A request in flight can take its next step iff it waits for nobody. */
  lemma BlockedExactly(s: State, p: Pid, d: Draw)
    requires InFlight(s, p) && Unused(s, d)
    ensures CanAdvance(s, p, d) <==> forall q :: !Blocks(s, p, q)
  {
    hide CanAdvance, Ready, Blocks, Unused;
    ReadyIsUnblocked(s, p);
    if CanAdvance(s, p, d) { AdvancesIsReady(s, p, d); }
    if Ready(s, p) { ReadyAdvances(s, p, d); }
  }

  // ---- circles -----------------------------------------------------------------------------

  /** Each waits for the next, and the last for the first. */
  ghost predicate IsCycle(s: State, ps: seq<Pid>) {
    ps != [] && forall i | 0 <= i < |ps| :: Blocks(s, ps[i], Next(ps, i))
  }

  function Next(ps: seq<Pid>, i: nat): Pid
    requires i < |ps|
  {
    if i + 1 < |ps| then ps[i + 1] else ps[0]
  }

  /** An author update that has its row and waits to enter a new email. */
  predicate ChangesEmail(st: Stage) {
    st.EditIndex? && Changed(st.before, st.newName, st.newEmail).email != st.before.email
  }

  /** One author update wants the email that another is giving up. */
  predicate GivesUp(s: State, p: Pid, q: Pid) {
    && p in s.procs && q in s.procs && p != q
    && ChangesEmail(s.procs[p]) && ChangesEmail(s.procs[q])
    && var st := s.procs[p];
       Changed(st.before, st.newName, st.newEmail).email == s.procs[q].before.email
  }

  predicate IsExchange(s: State, ps: seq<Pid>) {
    ps != [] && forall i | 0 <= i < |ps| :: GivesUp(s, ps[i], Next(ps, i))
  }

  lemma GivingUpBlocks(s: State, p: Pid, q: Pid)
    requires GivesUp(s, p, q)
    ensures Blocks(s, p, q)
  {
    hide Changed;
    assert Conflict(s, s.procs[p], s.procs[q], EmailEntry(s.procs[q].before.email));
  }

  /** The stages that can wait. */
  predicate Waits(st: Stage) {
    || st.PatchUpdate? || st.DropRow? || st.PostInsert? || st.AddIndex?
    || st.EditAuthor? || st.EditIndex? || st.RemoveAuthor? || st.RemoveCheck?
  }

  lemma BlockedWaits(s: State, p: Pid, q: Pid)
    requires Blocks(s, p, q)
    ensures Waits(s.procs[p])
    ensures s.procs[p].RemoveCheck? ==> s.procs[q].DropCommit?
  {
    hide Changed, UpdateMatches;
  }

  /** Who waits while others wait for it is an author update giving up its email, or an author
      delete whose foreign-key check waits. */
  lemma WaitingBlocker(s: State, p: Pid, q: Pid)
    requires Inv(s) && Blocks(s, p, q) && Waits(s.procs[q])
    ensures s.procs[q].EditIndex? || s.procs[q].RemoveCheck?
  {
    hide Inv, Changed, UpdateMatches, ValidAuthor, Exclusive, Shared, Wants, WantsShare;
    AddedIsNew(s, q);
    HoldsOnlyRow(s, q);
    if !AwaitsDrop(s, s.procs[p], s.procs[q]) {
      var k :| Conflict(s, s.procs[p], s.procs[q], k);
      RowsWantedExist(s, s.procs[p], k);
    }
  }

  lemma AddedIsNew(s: State, q: Pid)
    requires Inv(s) && q in s.procs
    ensures s.procs[q].AddIndex? ==> s.procs[q].id !in s.db.authors
  {
    hide Inv, StageOk;
    FailParts(s, q);
    StageIsNew(s, q);
  }

  lemma StageIsNew(s: State, q: Pid)
    requires StageOk(s, q, StageOf(s, q))
    ensures StageOf(s, q).AddIndex? ==> StageOf(s, q).id !in s.db.authors
  {
    hide ValidAuthor;
  }

  lemma HoldsOnlyRow(s: State, q: Pid)
    requires q in s.procs
    ensures Waits(s.procs[q]) && !s.procs[q].EditIndex? && !s.procs[q].RemoveCheck? ==>
              && Shared(s.procs[q]) == {}
              && Exclusive(s.procs[q]) == if s.procs[q].AddIndex? then {AuthorRow(s.procs[q].id)} else {}
  {
  }

  lemma RowsWantedExist(s: State, st: Stage, k: Lock)
    ensures k.AuthorRow? ==> !WantsShare(st, k) && (Wants(s, st, k) ==> k.id in s.db.authors)
  {
    hide Changed, UpdateMatches, StorableEdit, StorableOption, Storable;
  }

  /** Two author updates wait for each other only over emails. */
  lemma EditsConflict(s: State, p: Pid, q: Pid)
    requires Blocks(s, p, q) && s.procs[p].EditIndex? && s.procs[q].EditIndex?
    ensures GivesUp(s, p, q)
  {
    hide Changed;
  }

  /** Requests wait for each other in a circle exactly when they are author updates each of which
      wants the email that the next one is giving up. No message request, and no author create or
      delete, is ever in a circle. */
  lemma CycleExactly(states: seq<State>, actions: seq<Action>, i: nat, ps: seq<Pid>)
    requires IsExecution(states, actions) && i < |states|
    ensures IsCycle(states[i], ps) <==> IsExchange(states[i], ps)
  {
    hide Inv, Blocks, GivesUp, Step, Init;
    var s := states[i];
    ReachableIsOk(states, actions, i);
    forall k | 0 <= k < |ps| && IsCycle(s, ps)
      ensures GivesUp(s, ps[k], Next(ps, k))
    {
      CycleMember(s, ps, k);
      CycleMember(s, ps, if k + 1 < |ps| then k + 1 else 0);
      EditsConflict(s, ps[k], Next(ps, k));
    }
    forall k | 0 <= k < |ps| && IsExchange(s, ps)
      ensures Blocks(s, ps[k], Next(ps, k))
    {
      GivingUpBlocks(s, ps[k], Next(ps, k));
    }
  }

  lemma InProcs(s: State, p: Pid, q: Pid)
    requires Blocks(s, p, q)
    ensures p in s.procs && q in s.procs && p != q
  {
  }

  lemma CycleMember(s: State, ps: seq<Pid>, k: nat)
    requires Inv(s) && IsCycle(s, ps) && k < |ps|
    ensures ps[k] in s.procs && s.procs[ps[k]].EditIndex?
  {
    hide Inv, Blocks;
    var before := if k > 0 then k - 1 else |ps| - 1;
    var p, q, r := ps[before], ps[k], Next(ps, k);
    var after := if k + 1 < |ps| then k + 1 else 0;
    assert Next(ps, before) == q;
    assert Blocks(s, p, q) && Blocks(s, q, r) && Blocks(s, r, Next(ps, after));
    InProcs(s, p, q);
    InProcs(s, q, r);
    BlockedWaits(s, q, r);
    BlockedWaits(s, r, Next(ps, after));
    WaitingBlocker(s, p, q);
  }

  // ---- where waiting ends ------------------------------------------------------------------

  ghost predicate IsChain(s: State, path: seq<Pid>) {
    path != [] && forall i | 0 <= i < |path| - 1 :: Blocks(s, path[i], path[i + 1])
  }

  lemma BlockerInFlight(s: State, p: Pid, q: Pid)
    requires Blocks(s, p, q)
    ensures InFlight(s, q)
  {
    hide Changed, UpdateMatches, Wants, WantsShare;
  }

  /** Waiting ends at a request that can go on, or in a circle. */
  lemma WaitingEnds(s: State, p: Pid, d: Draw) returns (path: seq<Pid>, from: nat)
    requires InFlight(s, p) && Unused(s, d)
    ensures IsChain(s, path) && path[0] == p && from < |path|
    ensures CanAdvance(s, path[|path| - 1], d) || IsCycle(s, path[from..])
  {
    path, from := Follow(s, [p], {p}, d);
  }

  lemma Follow(s: State, path: seq<Pid>, seen: set<Pid>, d: Draw) returns (all: seq<Pid>, from: nat)
    requires IsChain(s, path) && Unused(s, d) && InFlight(s, path[|path| - 1])
    requires seen <= s.procs.Keys && forall x :: x in seen <==> x in path
    ensures IsChain(s, all) && all[0] == path[0] && from < |all|
    ensures CanAdvance(s, all[|all| - 1], d) || IsCycle(s, all[from..])
    decreases s.procs.Keys - seen
  {
    hide Blocks, CanAdvance, Unused, InFlight;
    var last := path[|path| - 1];
    BlockedExactly(s, last, d);
    if CanAdvance(s, last, d) {
      return path, 0;
    }
    var q :| Blocks(s, last, q);
    BlockerInFlight(s, last, q);
    InProcs(s, last, q);
    if q in seen {
      from :| 0 <= from < |path| && path[from] == q;
      all := path;
      ClosesCycle(s, path, from);
    } else {
      var more := path + [q];
      forall i | 0 <= i < |more| - 1
        ensures Blocks(s, more[i], more[i + 1])
      {
        if i + 1 < |path| { assert more[i] == path[i] && more[i + 1] == path[i + 1]; }
      }
      all, from := Follow(s, more, seen + {q}, d);
    }
  }

  lemma ClosesCycle(s: State, path: seq<Pid>, from: nat)
    requires IsChain(s, path) && from < |path| && Blocks(s, path[|path| - 1], path[from])
    ensures IsCycle(s, path[from..])
  {
    hide Blocks;
    var ps := path[from..];
    forall i | 0 <= i < |ps|
      ensures Blocks(s, ps[i], Next(ps, i))
    {
      assert ps[i] == path[from + i];
      if i + 1 < |ps| { assert ps[i + 1] == path[from + i + 1]; }
    }
  }

  /** However emails are exchanged, requests for messages go on: one that reads, edits or deletes a
      message waits at most for one that waits for nobody. */
  lemma MessagesGoOn(s: State, p: Pid, q: Pid, d: Draw)
    requires Unused(s, d) && Blocks(s, p, q)
    requires var st := s.procs[p]; InGet(st) || InPatch(st) || InDrop(st)
    ensures CanAdvance(s, q, d)
  {
    BlockerInFlight(s, p, q);
    RowHolders(s, p, q);
    forall r
      ensures !Blocks(s, q, r)
    {
      if Blocks(s, q, r) { BlockedWaits(s, q, r); }
    }
    hide Blocks, CanAdvance, Unused;
    BlockedExactly(s, q, d);
  }

  lemma RowHolders(s: State, p: Pid, q: Pid)
    requires Blocks(s, p, q)
    requires var st := s.procs[p]; InGet(st) || InPatch(st) || InDrop(st)
    ensures !Waits(s.procs[q])
  {
    hide Changed, UpdateMatches, StorableEdit;
  }

  // ---- when the database breaks a circle ---------------------------------------------------

  const DROP_OUT := Reply(409, Nothing)

  /** Since s some processes have dropped out, and nothing else has happened. */
  ghost predicate Released(s: State, t: State) {
    && t.db == s.db && t.procs.Keys == s.procs.Keys
    && forall r | r in s.procs :: t.procs[r] == s.procs[r] || t.procs[r].Closing?
  }

  lemma ExclusiveEntry(s: State, p: Pid, q: Pid)
    requires Inv(s) && GivesUp(s, p, q)
    ensures var k := EmailEntry(s.procs[q].before.email);
            forall r | r in s.procs && r != q :: k !in Exclusive(s.procs[r])
    ensures var st := s.procs[p];
            st.newEmail.Some? && EmailTaken(s.db.authors - {st.id}, st.newEmail.value)
  {
    FailParts(s, p);
    FailParts(s, q);
    var a, b := s.procs[p], s.procs[q];
    assert Compatible(a, b);
    hide Inv, ValidRequest, Compatible;
    EditHolds(b);
    OwnRow(a);
    OwnRow(b);
    hide Exclusive;
    forall r | r in s.procs && r != q
      ensures EmailEntry(b.before.email) !in Exclusive(s.procs[r])
    {
      LocksDisjoint(s, r, q);
    }
    LocksDisjoint(s, p, q);
    assert b.id in s.db.authors - {a.id};
  }

  lemma EditHolds(st: Stage)
    requires ChangesEmail(st)
    ensures EmailEntry(st.before.email) in Exclusive(st)
  {
    hide Changed;
  }

  lemma OwnRow(st: Stage)
    requires st.EditIndex?
    ensures AuthorRow(st.id) in Exclusive(st)
  {
    hide Changed;
  }

  lemma LocksDisjoint(s: State, p: Pid, q: Pid)
    requires Inv(s) && p in s.procs && q in s.procs && p != q
    ensures Exclusive(s.procs[p]) !! Exclusive(s.procs[q])
  {
    assert Compatible(s.procs[p], s.procs[q]);
  }

  lemma IndexGoesOn(s: State, p: Pid, d: Draw)
    requires StageOf(s, p).EditIndex?
    requires var st := StageOf(s, p);
             var k := EmailEntry(Changed(st.before, st.newName, st.newEmail).email);
             forall r | r in s.procs && r != p :: k !in Exclusive(s.procs[r])
    ensures CanAdvance(s, p, d)
  {
    hide Changed, Exclusive;
  }

  lemma IndexRefuses(s: State, p: Pid, d: Draw)
    requires StageOf(s, p).EditIndex? && StageOf(s, p).newEmail.Some?
    requires EmailTaken(s.db.authors - {StageOf(s, p).id}, StageOf(s, p).newEmail.value)
    ensures AdvanceStep(s, p, d) == Refusal(s, p, 409)
  {
    hide EmailTaken, Changed;
  }

  lemma RefusalReleases(s: State, t: State, p: Pid)
    requires Released(s, t) && p in s.procs
    ensures var t' := Refusal(t, p, 409);
            && Released(s, t') && StageOf(t', p) == Closing(DROP_OUT)
            && forall r | r != p :: StageOf(t', r) == StageOf(t, r)
  {
  }

  lemma StillExclusive(s: State, t: State, k: Lock, p: Pid, q: Pid)
    requires Released(s, t) && p in s.procs && q in s.procs && StageOf(t, q).Closing?
    requires forall r | r in s.procs && r != q :: k !in Exclusive(s.procs[r])
    ensures forall r | r in t.procs && r != p :: k !in Exclusive(t.procs[r])
  {
    forall r | r in t.procs && r != p
      ensures k !in Exclusive(t.procs[r])
    {
      NothingHeld(t.procs[r]);
    }
    hide Exclusive;
  }

  lemma NothingHeld(st: Stage)
    ensures st.Closing? ==> Exclusive(st) == {}
  {
  }

  /** Once the request that gives up the email has dropped out, the one that wants it goes on; the
      email is still taken, so it drops out too, with 409. */
  lemma DropsOut(s: State, t: State, p: Pid, q: Pid, d: Draw)
    requires Inv(s) && Released(s, t) && GivesUp(s, p, q)
    requires StageOf(t, p) == s.procs[p] && StageOf(t, q).Closing?
    ensures CanAdvance(t, p, d)
    ensures var t' := AdvanceStep(t, p, d);
            && Released(s, t') && StageOf(t', p) == Closing(DROP_OUT)
            && forall r | r != p :: StageOf(t', r) == StageOf(t, r)
  {
    ExclusiveEntry(s, p, q);
    hide Inv, EmailTaken, Changed, Exclusive, CanAdvance, AdvanceStep;
    StillExclusive(s, t, EmailEntry(s.procs[q].before.email), p, q);
    SameTables(s, t);
    hide Released, Refusal;
    IndexGoesOn(t, p, d);
    IndexRefuses(t, p, d);
    RefusalReleases(s, t, p);
  }

  lemma SameTables(s: State, t: State)
    requires Released(s, t)
    ensures t.db == s.db
  {
  }

  /** The database fails the first of a circle, and then the others go on, last to second. */
  function Unwound(s: State, ps: seq<Pid>, k: nat, d: Draw): State
    requires 1 <= k <= |ps|
    decreases |ps| - k
  {
    if k == |ps| then FailStep(s, ps[0]) else AdvanceStep(Unwound(s, ps, k + 1, d), ps[k], d)
  }

  predicate Distinct(ps: seq<Pid>) {
    forall i, j | 0 <= i < j < |ps| :: ps[i] != ps[j]
  }

  lemma FirstFails(s: State, p: Pid)
    requires p in s.procs && ChangesEmail(s.procs[p])
    ensures Step(s, Fail(p), FailStep(s, p))
    ensures var t := FailStep(s, p);
            && Released(s, t) && StageOf(t, p) == Closing(ServerError)
            && forall r | r != p :: StageOf(t, r) == StageOf(s, r)
  {
  }

  /** The first was failed, and all from the k-th on have dropped out since. */
  ghost predicate UnwoundTo(s: State, ps: seq<Pid>, k: nat, t: State)
    requires ps != []
  {
    && Released(s, t) && StageOf(t, ps[0]) == Closing(ServerError)
    && (forall i | 1 <= i && k <= i < |ps| :: StageOf(t, ps[i]) == Closing(DROP_OUT))
    && (forall i | 1 <= i < |ps| && i < k :: StageOf(t, ps[i]) == StageOf(s, ps[i]))
  }

  /** Breaking a circle frees everybody in it: one request is answered 500 and all the others, in
      turn, 409; no row has changed. */
  lemma {:induction false} AbortUnwinds(s: State, ps: seq<Pid>, k: nat, d: Draw)
    requires Inv(s) && IsExchange(s, ps) && Distinct(ps) && 1 <= k <= |ps|
    ensures UnwoundTo(s, ps, k, Unwound(s, ps, k, d)) && Unwound(s, ps, k, d).db == s.db
    ensures Step(s, Fail(ps[0]), FailStep(s, ps[0]))
    ensures k < |ps| ==> Step(Unwound(s, ps, k + 1, d), Advance(ps[k], d), Unwound(s, ps, k, d))
    decreases |ps| - k
  {
    hide Inv, GivesUp, FailStep, AdvanceStep, CanAdvance, Step, UnwoundTo, IsExchange, Distinct;
    if k < |ps| {
      AbortUnwinds(s, ps, k + 1, d);
      UnwindsOne(s, ps, k, Unwound(s, ps, k + 1, d), d);
    } else {
      UnwindsFirst(s, ps);
    }
  }

  lemma UnwindsFirst(s: State, ps: seq<Pid>)
    requires IsExchange(s, ps) && Distinct(ps) && ps != []
    ensures var t := FailStep(s, ps[0]); Step(s, Fail(ps[0]), t) && UnwoundTo(s, ps, |ps|, t) && t.db == s.db
  {
    hide GivesUp, FailStep, AdvanceStep, CanAdvance, Step, Released, StageOf;
    Exchanging(s, ps[0], Next(ps, 0));
    FirstFails(s, ps[0]);
    SameTables(s, FailStep(s, ps[0]));
  }

  lemma UnwindsOne(s: State, ps: seq<Pid>, k: nat, t: State, d: Draw)
    requires Inv(s) && IsExchange(s, ps) && Distinct(ps) && 1 <= k < |ps| && UnwoundTo(s, ps, k + 1, t)
    ensures var t' := AdvanceStep(t, ps[k], d);
            Step(t, Advance(ps[k], d), t') && UnwoundTo(s, ps, k, t') && t'.db == s.db
  {
    hide Inv, GivesUp, FailStep, AdvanceStep, CanAdvance, Step, Released, StageOf;
    Exchanging(s, ps[k], Next(ps, k));
    DropsOut(s, t, ps[k], Next(ps, k), d);
    Advances(t, ps[k], d);
    SameTables(s, AdvanceStep(t, ps[k], d));
  }

  lemma Exchanging(s: State, p: Pid, q: Pid)
    requires GivesUp(s, p, q)
    ensures p in s.procs && ChangesEmail(s.procs[p]) && StageOf(s, p) == s.procs[p]
  {
  }

  lemma Advances(s: State, p: Pid, d: Draw)
    requires CanAdvance(s, p, d)
    ensures Step(s, Advance(p, d), AdvanceStep(s, p, d))
  {
    hide CanAdvance, AdvanceStep;
  }

  /** Nobody else is in flight. */
  predicate AtRest(s: State) {
    forall r | r in s.procs :: s.procs[r].Idle? || s.procs[r].Done?
  }

  function TakeEmail(s: State, a: Id, b: Id): Request
    requires b in s.db.authors
  {
    UpdateAuthor(a, None, Some(s.db.authors[b].email))
  }

  /** The circle does happen: in any state at rest with two authors, two requests that give each
      author the other's email come to wait for each other after two steps each. */
  lemma SwapDeadlocks(s: State, p: Pid, q: Pid, a: Id, b: Id, d: Draw) returns (states: seq<State>)
    requires Inv(s) && AtRest(s) && p != q
    requires a in s.db.authors && b in s.db.authors && a != b
    ensures |states| == 5 && states[0] == s
    ensures IsRun(states, [Start(p, TakeEmail(s, a, b)), Start(q, TakeEmail(s, b, a)), Advance(p, d), Advance(q, d)])
    ensures IsExchange(states[4], [p, q]) && !CanAdvance(states[4], p, d) && !CanAdvance(states[4], q, d)
  {
    hide Inv, AtRest, Step, CanAdvance, Storable, IsExchange, TakeEmail;
    EmailsDiffer(s, a, b);
    var s1, s2 := BothStart(s, p, q, a, b);
    var s3 := FirstTakes(s, s2, p, q, a, b, d);
    var s4 := SecondTakes(s, s3, p, q, a, b, d);
    states := [s, s1, s2, s3, s4];
  }

  lemma EmailsDiffer(s: State, a: Id, b: Id)
    requires Inv(s) && a in s.db.authors && b in s.db.authors && a != b
    ensures s.db.authors[a].email != s.db.authors[b].email
    ensures Storable(s.db.authors[a].email) && Storable(s.db.authors[b].email)
  {
    hide Inv, ValidRequest, Storable;
    StoredEmails(s, a, b);
  }

  lemma TakeIsValid(s: State, a: Id, b: Id)
    requires Inv(s) && a in s.db.authors && b in s.db.authors && a != b
    ensures ValidRequest(TakeEmail(s, a, b)) && ValidRequest(TakeEmail(s, b, a))
  {
    hide Inv, ValidRequest, Storable;
    StoredEmails(s, a, b);
  }

  lemma BothStart(s: State, p: Pid, q: Pid, a: Id, b: Id) returns (s1: State, s2: State)
    requires Inv(s) && AtRest(s) && p != q
    requires a in s.db.authors && b in s.db.authors && a != b
    ensures Step(s, Start(p, TakeEmail(s, a, b)), s1) && Step(s1, Start(q, TakeEmail(s, b, a)), s2)
    ensures s2.db == s.db
    ensures s2.procs == s.procs[p := EditAuthor(a, None, Some(s.db.authors[b].email))]
                               [q := EditAuthor(b, None, Some(s.db.authors[a].email))]
  {
    hide Inv, AtRest, Step, StartStep, ValidRequest, Storable;
    TakeIsValid(s, a, b);
    RestingStage(s, p);
    RestingStage(s, q);
    s1 := StartStep(s, p, TakeEmail(s, a, b));
    Renamed(s, p, a, s.db.authors[b].email);
    s2 := StartStep(s1, q, TakeEmail(s, b, a));
    Renamed(s1, q, b, s.db.authors[a].email);
  }

  lemma FirstTakes(s: State, s2: State, p: Pid, q: Pid, a: Id, b: Id, d: Draw) returns (s3: State)
    requires AtRest(s) && s2.db == s.db && a in s.db.authors && b in s.db.authors && p != q
    requires Storable(s.db.authors[b].email)
    requires s2.procs == s.procs[p := EditAuthor(a, None, Some(s.db.authors[b].email))]
                                [q := EditAuthor(b, None, Some(s.db.authors[a].email))]
    ensures Step(s2, Advance(p, d), s3) && s3.db == s.db
    ensures s3.procs == s.procs[q := EditAuthor(b, None, Some(s.db.authors[a].email))]
                               [p := EditIndex(a, None, Some(s.db.authors[b].email), s.db.authors[a])]
  {
    hide AtRest, Step, AdvanceStep, CanEdit, Storable;
    FirstCanEdit(s, s2, p, q, a, b);
    s3 := AdvanceStep(s2, p, d);
    TakesRow(s2, p, a, s.db.authors[b].email, d);
    assert s3.procs == s.procs[q := EditAuthor(b, None, Some(s.db.authors[a].email))]
                              [p := EditIndex(a, None, Some(s.db.authors[b].email), s.db.authors[a])];
  }

  lemma SecondTakes(s: State, s3: State, p: Pid, q: Pid, a: Id, b: Id, d: Draw) returns (s4: State)
    requires AtRest(s) && s3.db == s.db && a in s.db.authors && b in s.db.authors && a != b && p != q
    requires s.db.authors[a].email != s.db.authors[b].email && Storable(s.db.authors[a].email)
    requires s3.procs == s.procs[q := EditAuthor(b, None, Some(s.db.authors[a].email))]
                                [p := EditIndex(a, None, Some(s.db.authors[b].email), s.db.authors[a])]
    ensures Step(s3, Advance(q, d), s4)
    ensures IsExchange(s4, [p, q]) && !CanAdvance(s4, p, d) && !CanAdvance(s4, q, d)
  {
    hide AdvanceStep, Step, CanAdvance, CanEdit, Storable, IsExchange;
    assert s3.procs == s.procs[p := EditIndex(a, None, Some(s.db.authors[b].email), s.db.authors[a])]
                              [q := EditAuthor(b, None, Some(s.db.authors[a].email))];
    SecondCanEdit(s, s3, p, q, a, b);
    TakesRow(s3, q, b, s.db.authors[a].email, d);
    s4 := AdvanceStep(s3, q, d);
    BothWait(s4, p, q, a, b, d);
  }

  lemma RestingStage(s: State, p: Pid)
    requires AtRest(s)
    ensures StageOf(s, p).Idle? || StageOf(s, p).Done?
  {
  }

  lemma FirstCanEdit(s: State, s2: State, p: Pid, q: Pid, a: Id, b: Id)
    requires AtRest(s) && s2.db == s.db && a in s.db.authors && b in s.db.authors && p != q
    requires s2.procs == s.procs[p := EditAuthor(a, None, Some(s.db.authors[b].email))]
                                [q := EditAuthor(b, None, Some(s.db.authors[a].email))]
    ensures CanEdit(s2, p, a, None, Some(s.db.authors[b].email))
  {
    hide Storable;
  }

  lemma SecondCanEdit(s: State, s3: State, p: Pid, q: Pid, a: Id, b: Id)
    requires AtRest(s) && s3.db == s.db && a in s.db.authors && b in s.db.authors && a != b && p != q
    requires s.db.authors[a].email != s.db.authors[b].email
    requires s3.procs == s.procs[p := EditIndex(a, None, Some(s.db.authors[b].email), s.db.authors[a])]
                                [q := EditAuthor(b, None, Some(s.db.authors[a].email))]
    ensures CanEdit(s3, q, b, None, Some(s.db.authors[a].email))
  {
    hide Storable;
  }

  /** The update locks its row and gives up the old email. */
  lemma TakesRow(s: State, p: Pid, a: Id, email: string, d: Draw)
    requires StageOf(s, p) == EditAuthor(a, None, Some(email)) && Storable(email) && a in s.db.authors
    requires CanEdit(s, p, a, None, Some(email))
    ensures var s' := AdvanceStep(s, p, d);
            && Step(s, Advance(p, d), s') && s'.db == s.db
            && s'.procs == s.procs[p := EditIndex(a, None, Some(email), s.db.authors[a])]
  {
    hide CanEdit, Storable;
  }

  lemma BothWait(s: State, p: Pid, q: Pid, a: Id, b: Id, d: Draw)
    requires a in s.db.authors && b in s.db.authors && p != q
    requires s.db.authors[a].email != s.db.authors[b].email
    requires p in s.procs && s.procs[p] == EditIndex(a, None, Some(s.db.authors[b].email), s.db.authors[a])
    requires q in s.procs && s.procs[q] == EditIndex(b, None, Some(s.db.authors[a].email), s.db.authors[b])
    ensures IsExchange(s, [p, q]) && !CanAdvance(s, p, d) && !CanAdvance(s, q, d)
  {
    assert EmailEntry(s.db.authors[b].email) in Exclusive(s.procs[q]);
    assert EmailEntry(s.db.authors[a].email) in Exclusive(s.procs[p]);
  }

  lemma StoredEmails(s: State, a: Id, b: Id)
    requires Inv(s) && a in s.db.authors && b in s.db.authors && a != b
    ensures s.db.authors[a].email != s.db.authors[b].email
    ensures forall x | x == a || x == b ::
              ValidRequest(UpdateAuthor(x, None, Some(s.db.authors[a].email)))
              && ValidRequest(UpdateAuthor(x, None, Some(s.db.authors[b].email)))
    ensures Storable(s.db.authors[a].email) && Storable(s.db.authors[b].email)
  {
    assert ValidAuthor(s.db.authors[a]) && ValidAuthor(s.db.authors[b]);
    hide ValidText, ValidEmail, HistoryOk, SeenOk, CacheOk, CommitsOk, StagesOk, LocksOk, LogOk;
  }

  lemma Renamed(s: State, p: Pid, a: Id, email: string)
    requires ValidRequest(UpdateAuthor(a, None, Some(email))) && (StageOf(s, p).Idle? || StageOf(s, p).Done?)
    ensures var r := UpdateAuthor(a, None, Some(email));
            var s' := StartStep(s, p, r);
            && Step(s, Start(p, r), s') && s'.db == s.db
            && s'.procs == s.procs[p := EditAuthor(a, None, Some(email))]
  {
    CleanRequestIsValid(UpdateAuthor(a, None, Some(email)));
    hide CleanRequest, ValidRequest;
  }
}
