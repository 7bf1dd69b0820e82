/** Which statement waits for which open transaction, written out for each statement. */
module LockTable {
  import opened Validation
  import opened Relational
  import opened Protocol
  import opened Deadlock

  /** An open transaction has changed or deleted the message's row. */
  predicate HoldsMessage(st: Stage, id: Id) {
    || ((st.PatchReload? || st.PatchCommit?) && st.id == id)
    || (st.DropCommit? && st.found && st.id == id)
    || (st.PostCommit? && st.id == id)
  }

  /** An open transaction has updated the author, and its email with it. */
  predicate ChangesAddress(st: Stage, author: Id) {
    && (st.EditIndex? || st.EditCommit?) && st.id == author
    && st.newEmail.Some? && st.newEmail.value != st.before.email
  }

  predicate Removes(st: Stage, author: Id) {
    || (st.RemoveCheck? && st.id == author)
    || (st.RemoveCommit? && st.removed.Some? && st.id == author)
  }

  /** An open transaction has inserted, updated or deleted the author's row. */
  predicate HoldsAuthor(st: Stage, author: Id) {
    || ((st.AddIndex? || st.AddCommit? || st.EditIndex? || st.EditCommit?) && st.id == author)
    || Removes(st, author)
  }

  /** The update and the delete of a message wait exactly for the transactions that have its row. */
  lemma MessageWrites(s: State, p: Pid, q: Pid)
    requires p in s.procs && q in s.procs && p != q
    ensures var st := s.procs[p];
            && (st.PatchUpdate? ==>
                  (Blocks(s, p, q) <==>
                   StorableEdit(st.edit) && UpdateMatches(s, st.id, st.edit) && HoldsMessage(s.procs[q], st.id)))
            && (st.DropRow? ==> (Blocks(s, p, q) <==> st.id in s.db.messages && HoldsMessage(s.procs[q], st.id)))
  {
    hide Changed, UpdateMatches, StorableEdit;
    var st, other := s.procs[p], s.procs[q];
    if st.PatchUpdate? || st.DropRow? {
      MessageLock(other, st.id);
      assert Blocks(s, p, q) <==> Conflict(s, st, other, MessageRow(st.id));
    }
  }

  lemma MessageLock(st: Stage, id: Id)
    ensures MessageRow(id) in Exclusive(st) <==> HoldsMessage(st, id)
    ensures MessageRow(id) !in Shared(st)
  {
    hide Changed;
  }

  /** The insert of a message waits exactly for transactions that delete its author or change the
      author's email, not for one that changes the name. */
  lemma MessageInsert(s: State, p: Pid, q: Pid)
    requires p in s.procs && q in s.procs && p != q && s.procs[p].PostInsert?
    ensures var st, author := s.procs[p], s.procs[p].author.id;
            Blocks(s, p, q) <==>
            && Storable(st.title) && Storable(st.content)
            && (ChangesAddress(s.procs[q], author) || Removes(s.procs[q], author))
  {
    hide Storable;
    var st, other := s.procs[p], s.procs[q];
    KeyLock(other, st.author.id);
    assert Blocks(s, p, q) <==> Conflict(s, st, other, AuthorKey(st.author.id));
  }

  lemma KeyLock(st: Stage, author: Id)
    ensures AuthorKey(author) in Exclusive(st) <==> ChangesAddress(st, author) || Removes(st, author)
  {
  }

  // ---- authors -----------------------------------------------------------------------------

  /** An open transaction adds or gives up the email's index entry. */
  predicate HoldsEntry(st: Stage, email: string) {
    || (st.AddCommit? && st.added.email == email)
    || ((st.EditIndex? || st.EditCommit?) && ChangesAddress(st, st.id) && st.before.email == email)
    || (st.EditCommit? && ChangesAddress(st, st.id) && st.newEmail.value == email)
    || (st.RemoveCheck? && st.target.email == email)
    || (st.RemoveCommit? && st.removed.Some? && st.removed.value.email == email)
  }

  /** An open transaction has inserted a message by the author. */
  predicate InsertsFor(st: Stage, author: Id) {
    st.PostCommit? && st.row.authorId == author
  }

  lemma AuthorLocks(st: Stage, author: Id, email: string)
    ensures AuthorRow(author) in Exclusive(st) <==> HoldsAuthor(st, author)
    ensures EmailEntry(email) in Exclusive(st) <==> HoldsEntry(st, email)
    ensures AuthorKey(author) in Shared(st) <==> InsertsFor(st, author)
    ensures AuthorRow(author) !in Shared(st) && EmailEntry(email) !in Shared(st)
  {
  }

  /** Entering an email waits exactly for the transactions that have its entry. */
  lemma EmailEntries(s: State, p: Pid, q: Pid)
    requires p in s.procs && q in s.procs && p != q
    ensures var st := s.procs[p];
            && (st.AddIndex? ==> (Blocks(s, p, q) <==> HoldsEntry(s.procs[q], st.added.email)))
            && (st.EditIndex? ==>
                  (Blocks(s, p, q) <==>
                   ChangesAddress(st, st.id) && HoldsEntry(s.procs[q], st.newEmail.value)))
  {
    var st, other := s.procs[p], s.procs[q];
    var email := if st.AddIndex? then st.added.email
                 else if st.EditIndex? && st.newEmail.Some? then st.newEmail.value else "";
    AuthorLocks(other, 0, email);
    hide Exclusive, Shared;
    if st.AddIndex? {
      assert Blocks(s, p, q) <==> Conflict(s, st, other, EmailEntry(email));
    } else if st.EditIndex? {
      assert Blocks(s, p, q) <==> ChangesAddress(st, st.id) && Conflict(s, st, other, EmailEntry(email));
    }
  }

  /** Deleting an author waits for the transactions that have its row, its key or its email's entry,
      and for open inserts of messages by it. */
  lemma AuthorDelete(s: State, p: Pid, q: Pid)
    requires p in s.procs && q in s.procs && p != q
    requires s.procs[p].RemoveAuthor? && s.procs[p].id in s.db.authors
    ensures var id, other := s.procs[p].id, s.procs[q];
            Blocks(s, p, q) <==>
            HoldsAuthor(other, id) || InsertsFor(other, id) || HoldsEntry(other, s.db.authors[id].email)
  {
    var st, other := s.procs[p], s.procs[q];
    var email := s.db.authors[st.id].email;
    AuthorLocks(other, st.id, email);
    KeyLock(other, st.id);
    hide Exclusive, Shared;
    assert Blocks(s, p, q) <==>
           || Conflict(s, st, other, AuthorRow(st.id)) || Conflict(s, st, other, AuthorKey(st.id))
           || Conflict(s, st, other, EmailEntry(email));
  }

  /** Updating an author waits for the transactions that have its row; and, if it changes the email,
      for the same as deleting it. */
  lemma AuthorUpdate(s: State, p: Pid, q: Pid)
    requires p in s.procs && q in s.procs && p != q
    requires var st := s.procs[p];
             st.EditAuthor? && st.id in s.db.authors && StorableOption(st.newName) && StorableOption(st.newEmail)
    ensures var st, other := s.procs[p], s.procs[q];
            var email := s.db.authors[st.id].email;
            Blocks(s, p, q) <==>
            || HoldsAuthor(other, st.id)
            || (st.newEmail.Some? && st.newEmail.value != email
                && (InsertsFor(other, st.id) || HoldsEntry(other, email)))
  {
    var st, other := s.procs[p], s.procs[q];
    var email := s.db.authors[st.id].email;
    AuthorLocks(other, st.id, email);
    KeyLock(other, st.id);
    hide Exclusive, Shared, StorableOption;
    assert Blocks(s, p, q) <==>
           || Conflict(s, st, other, AuthorRow(st.id)) || Conflict(s, st, other, AuthorKey(st.id))
           || Conflict(s, st, other, EmailEntry(email));
  }
}
