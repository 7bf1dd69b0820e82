/** `seed_initial_message` as one replica runs it, inside its transaction. */
module Seeding {
  import opened Validation
  import opened Relational
  import opened Service
  import Startup

  /** The one author with the system email. */
  predicate IsSystem(t: Tables, a: Id) {
    a in t.authors && t.authors[a].email == Startup.SYSTEM_EMAIL
  }

  /** A table with messages is left alone. An empty one gets one message, by the system author,
      who is created only if no author has that email; no other author is touched and the tables
      stay sound. A second call changes nothing. */
  method SeedInitialMessage(session: Session, a: Draw, m: Draw)
    requires session.seen == session.committed && Sound(session.committed)
    requires a.newId !in session.committed.authors
    modifies session
    ensures session.seen == session.committed && Sound(session.committed)
    ensures old(session.committed).messages != map[] ==> session.committed == old(session.committed)
    ensures old(session.committed).messages == map[] ==>
              var before, after := old(session.committed), session.committed;
              && after.messages.Keys == {m.newId}
              && after.messages[m.newId].title == Startup.WELCOME_TITLE
              && after.messages[m.newId].content == Startup.WELCOME_CONTENT
              && after.messages[m.newId].version == 0 && after.messages[m.newId].createdAt == m.now
              && IsSystem(after, after.messages[m.newId].authorId)
              && after.authors == (if EmailTaken(before.authors, Startup.SYSTEM_EMAIL) then before.authors
                                   else before.authors[a.newId := Author("system", Startup.SYSTEM_EMAIL, a.now)])
  {
    hide Sound, Storable;
    TextsAreStorable();
    var count := |session.seen.messages|;
    if count > 0 {
      session.Commit();
      return;
    }
    assert session.seen.messages.Keys == {};
    var _ := session.InsertAuthor(a.newId, Author("system", Startup.SYSTEM_EMAIL, a.now));
    var author := session.AuthorByEmail(Startup.SYSTEM_EMAIL);
    assert author.Some? by {
      assert a.newId in session.seen.authors || EmailTaken(old(session.committed).authors, Startup.SYSTEM_EMAIL);
    }
    var row := Message(Startup.WELCOME_TITLE, Startup.WELCOME_CONTENT, author.value, m.now, 0);
    var _ := session.InsertMessage(m.newId, row);
    session.Commit();
    SeededIsSound(old(session.committed), a, m.newId, row);
  }

  lemma TextsAreStorable()
    ensures Storable("system") && Storable(Startup.SYSTEM_EMAIL)
    ensures Storable(Startup.WELCOME_TITLE) && Storable(Startup.WELCOME_CONTENT)
  {
    Startup.SystemAuthorIsValid();
    Startup.TitleIsValid();
    Startup.ContentIsValid();
    hide ValidText, ValidAddress, Storable;
  }

  lemma SeededIsSound(t: Tables, a: Draw, id: Id, row: Message)
    requires Sound(t) && t.messages == map[] && a.newId !in t.authors
    requires row.title == Startup.WELCOME_TITLE && row.content == Startup.WELCOME_CONTENT && row.version == 0
    ensures var system := Author("system", Startup.SYSTEM_EMAIL, a.now);
            var authors := if EmailTaken(t.authors, system.email) then t.authors else t.authors[a.newId := system];
            row.authorId in authors ==> Sound(Tables(authors, map[id := row]))
  {
    Startup.SystemAuthorIsValid();
    Startup.WelcomeIsValid(row.authorId, row.createdAt);
    hide ValidText, ValidAddress, Storable;
  }
}
