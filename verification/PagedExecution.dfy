/** What a client that walks the pages finds, in terms of the interleaved service. */
module PagedExecution {
  import opened Validation
  import opened Relational
  import opened Protocol
  import opened ProtocolInvariant
  import opened ProtocolCommits
  import opened ProtocolTheorems
  import opened RequestTheorems
  import opened Pagination

  /** A step that removes a message. */
  predicate Deletes(s: State, a: Action) {
    a.Advance? && StageOf(s, a.p).DropCommit? && StageOf(s, a.p).found
  }

  lemma PatchGrows(s: State, p: Pid, id: Id, edit: Edit, row: Message, out: Option<MessageOut>)
    requires Held(s, id, edit, row)
    ensures Grown(s.db.messages, PatchCommitStep(s, p, id, edit, row, out).db.messages)
  {
    hide ValidEdit, Extended;
  }

  lemma PostGrows(s: State, p: Pid, id: Id, row: Message, author: AuthorOut)
    requires HistoryOk(s) && id !in s.history
    ensures Grown(s.db.messages, PostCommitStep(s, p, id, row, author).db.messages)
  {
    hide Extended;
  }

  lemma CommitGrows(s: State, p: Pid, d: Draw)
    requires Core(s) && p in s.procs && Commits(s.procs[p]) && !Deletes(s, Advance(p, d))
    ensures Grown(s.db.messages, AdvanceStep(s, p, d).db.messages)
  {
    CommitParts(s, p);
    CommitIs(s, p, d);
    hide Core, HistoryOk, Held, PatchCommitStep, PostCommitStep, AdvanceStep, AuthorStep, Grown;
    match s.procs[p]
    case PatchCommit(id, edit, row, out) => PatchGrows(s, p, id, edit, row, out);
    case PostCommit(id, row, author) => PostGrows(s, p, id, row, author);
    case _ =>
      AuthorsKeepMessages(s, p, d);
      GrownIsReflexive(s.db.messages);
  }

  lemma GrownIsReflexive(rows: Rows)
    ensures Grown(rows, rows)
  {
  }

  lemma StepGrows(s: State, a: Action, s': State)
    requires Core(s) && Step(s, a, s') && !Deletes(s, a)
    ensures Grown(s.db.messages, s'.db.messages)
  {
    hide Core, CanAdvance, AdvanceStep, CleanRequest;
    if a.Advance? {
      if a.p in s.procs && Commits(s.procs[a.p]) {
        CommitGrows(s, a.p, a.draw);
      } else {
        OnlyCommitsWrite(s, a.p, a.draw);
      }
    }
  }

  lemma GrownIsTransitive(a: Rows, b: Rows, c: Rows)
    requires Grown(a, b) && Grown(b, c)
    ensures Grown(a, c)
  {
  }

  lemma {:induction false} RunGrows(states: seq<State>, actions: seq<Action>, i: nat, j: nat)
    requires IsExecution(states, actions) && i <= j < |states|
    requires forall k | i <= k < j :: !Deletes(states[k], actions[k])
    ensures Grown(states[i].db.messages, states[j].db.messages)
    decreases j
  {
    hide Inv, Core, Deletes, Step, Grown;
    if i < j {
      RunGrows(states, actions, i, j - 1);
      InvAndStep(states, actions, j - 1);
      InvIsCore(states[j - 1]);
      StepGrows(states[j - 1], actions[j - 1], states[j]);
      GrownIsTransitive(states[i].db.messages, states[j - 1].db.messages, states[j].db.messages);
    } else {
      GrownIsReflexive(states[i].db.messages);
    }
  }

  /** The pages of a walk, when the k-th is read in the state `rowsAt[k]` and counted in the later
      state `countAt[k]`. */
  predicate Reads(states: seq<State>, rowsAt: seq<nat>, countAt: seq<nat>, snaps: seq<Snapshot>) {
    && |rowsAt| == |countAt| == |snaps|
    && (forall k | 0 <= k < |snaps| :: rowsAt[k] <= countAt[k] < |states|)
    && (forall k | 0 < k < |snaps| :: countAt[k - 1] <= rowsAt[k])
    && (forall k | 0 <= k < |snaps| ::
          snaps[k] == Snapshot(states[rowsAt[k]].db.messages, states[countAt[k]].db.messages))
  }

  /** No message is deleted between the first statement of a walk and its last. */
  predicate DeletesNothing(
    states: seq<State>, actions: seq<Action>, rowsAt: seq<nat>, countAt: seq<nat>, snaps: seq<Snapshot>)
    requires |states| == |actions| + 1 && Reads(states, rowsAt, countAt, snaps) && snaps != []
  {
    forall k | rowsAt[0] <= k < countAt[|snaps| - 1] :: !Deletes(states[k], actions[k])
  }

  /** The times of a walk rise. */
  lemma {:induction false} TimesRise(
    states: seq<State>, rowsAt: seq<nat>, countAt: seq<nat>, snaps: seq<Snapshot>, k: nat)
    requires Reads(states, rowsAt, countAt, snaps) && k < |snaps|
    ensures rowsAt[0] <= rowsAt[k] && countAt[k] <= countAt[|snaps| - 1]
    ensures k > 0 ==> rowsAt[0] <= countAt[k - 1]
  {
    RowsRise(states, rowsAt, countAt, snaps, k);
    CountsRise(states, rowsAt, countAt, snaps, k);
    if k > 0 { RowsRise(states, rowsAt, countAt, snaps, k - 1); }
  }

  lemma {:induction false} RowsRise(
    states: seq<State>, rowsAt: seq<nat>, countAt: seq<nat>, snaps: seq<Snapshot>, k: nat)
    requires Reads(states, rowsAt, countAt, snaps) && k < |snaps|
    ensures rowsAt[0] <= rowsAt[k]
  {
    if k > 0 { RowsRise(states, rowsAt, countAt, snaps, k - 1); }
  }

  lemma {:induction false} CountsRise(
    states: seq<State>, rowsAt: seq<nat>, countAt: seq<nat>, snaps: seq<Snapshot>, k: nat)
    requires Reads(states, rowsAt, countAt, snaps) && k < |snaps|
    ensures countAt[k] <= countAt[|snaps| - 1]
    decreases |snaps| - k
  {
    if k + 1 < |snaps| { CountsRise(states, rowsAt, countAt, snaps, k + 1); }
  }

  /** Whatever inserts and updates an execution interleaves with a walk, and however their commits
      fall between the two statements of a page, as long as no message is deleted while the walk
      goes on it meets tables that only grow. */
  lemma WalkedTablesOnlyGrow(
    states: seq<State>, actions: seq<Action>, rowsAt: seq<nat>, countAt: seq<nat>, snaps: seq<Snapshot>)
    requires IsExecution(states, actions) && Reads(states, rowsAt, countAt, snaps) && snaps != []
    requires DeletesNothing(states, actions, rowsAt, countAt, snaps)
    ensures OnlyGrows(snaps)
  {
    hide Deletes, Grown, Step;
    forall k | 0 <= k < |snaps|
      ensures Grown(snaps[k].rows, snaps[k].counted)
    {
      TimesRise(states, rowsAt, countAt, snaps, k);
      RunGrows(states, actions, rowsAt[k], countAt[k]);
    }
    forall k | 0 < k < |snaps|
      ensures Grown(snaps[k - 1].counted, snaps[k].rows)
    {
      TimesRise(states, rowsAt, countAt, snaps, k);
      RunGrows(states, actions, countAt[k - 1], rowsAt[k]);
    }
  }

  /** End to end: whatever inserts and updates an execution interleaves with a walk, and however
      their commits fall between the two statements of a page, a walk that ends has listed every
      message that was there when it began, as long as no message is deleted while it goes on. */
  lemma NoMessageIsSkipped(
    states: seq<State>, actions: seq<Action>, rowsAt: seq<nat>, countAt: seq<nat>, snaps: seq<Snapshot>, limit: nat)
    requires IsExecution(states, actions) && Reads(states, rowsAt, countAt, snaps) && snaps != []
    requires DeletesNothing(states, actions, rowsAt, countAt, snaps)
    ensures var w := WalkFrom(snaps, limit, 0, 0, []);
            && (w.ended ==> forall m | m in states[rowsAt[0]].db.messages :: m in w.listed)
            && (forall m | m in w.listed :: exists k | 0 <= k < |rowsAt| :: m in states[rowsAt[k]].db.messages)
  {
    hide Deletes, DeletesNothing, OnlyGrows, WalkFrom, Step;
    WalkedTablesOnlyGrow(states, actions, rowsAt, countAt, snaps);
    WalkSkipsNothing(snaps, limit);
    forall m | Seen(snaps, m)
      ensures exists k | 0 <= k < |rowsAt| :: m in states[rowsAt[k]].db.messages
    {
      var j :| 0 <= j < |snaps| && m in snaps[j].rows;
      assert m in states[rowsAt[j]].db.messages;
    }
  }
}
