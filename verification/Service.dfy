/** The request handlers as they run one at a time: a database session, the shared cache map, and
    the statements each handler issues. Every handler is tied to the service without a cache. */
module Service {
  import opened Validation
  import opened Relational

  type Entries = map<Id, MessageOut>

  // ---- what the handlers are specified by --------------------------------------------------

  /** The answer of the service with a cache: a cached copy if there is one. */
  function Answer(t: Tables, entries: Entries, r: Request, d: Draw): Outcome {
    if r.GetMessage? && r.id in entries then Outcome(t, Reply(200, TheMessage(entries[r.id])))
    else Exec(t, r, d)
  }

  /** What a request leaves in the cache. Nothing is evicted when the handler fails before it. */
  function EntriesAfter(t: Tables, entries: Entries, r: Request): Entries {
    match r
    case GetMessage(id) =>
      if id !in entries && Load(t, id).Found? then entries[id := Load(t, id).message] else entries
    case UpdateMessage(id, edit) =>
      if ExecUpdateMessage(t, id, edit).reply.status == 500 then entries else entries - {id}
    case DeleteMessage(id) => entries - {id}
    case _ => entries
  }

  // ---- the session and the cache -----------------------------------------------------------

  /** A write is done, matches no row, is refused by a constraint, or fails in another way. */
  datatype Written = Written | NoMatch | Refused | Failed

  /** One database session: what its open transaction sees, and what is committed. */
  class Session {
    var committed: Tables
    var seen: Tables

    constructor (t: Tables)
      ensures committed == t && seen == t
    {
      committed, seen := t, t;
    }

    method Commit()
      modifies this
      ensures committed == seen == old(seen)
    {
      committed := seen;
    }

    method Rollback()
      modifies this
      ensures committed == seen == old(committed)
    {
      seen := committed;
    }

    /** Between two statements of a transaction that has written nothing, others may commit. */
    method OthersCommit(t: Tables)
      requires seen == committed
      modifies this
      ensures committed == seen == t
    {
      committed, seen := t, t;
    }

    /** `_load` */
    method LoadMessage(id: Id) returns (row: Loaded)
      ensures row == Load(seen, id)
    {
      if id !in seen.messages {
        return NoRow;
      }
      var m := seen.messages[id];
      if m.authorId !in seen.authors {
        return NoAuthor;
      }
      var a := seen.authors[m.authorId];
      row := Found(MessageOut(id, m.title, m.content, m.createdAt, m.version,
                              AuthorOut(m.authorId, a.name, a.email, a.createdAt)));
    }

    method FindAuthor(id: Id) returns (author: Option<Author>)
      ensures author == if id in seen.authors then Some(seen.authors[id]) else None
    {
      author := if id in seen.authors then Some(seen.authors[id]) else None;
    }

    method AuthorByEmail(email: string) returns (id: Option<Id>)
      ensures id.Some? <==> EmailTaken(seen.authors, email)
      ensures id.Some? ==> id.value in seen.authors && seen.authors[id.value].email == email
    {
      if EmailTaken(seen.authors, email) {
        var a :| a in seen.authors && seen.authors[a].email == email;
        return Some(a);
      }
      id := None;
    }

    /** INSERT INTO messages; the foreign key refuses an author that is not there. */
    method InsertMessage(id: Id, m: Message) returns (w: Written)
      modifies `seen
      ensures w == if !Storable(m.title) || !Storable(m.content) then Failed
                   else if m.authorId in old(seen).authors then Written
                   else Refused
      ensures seen == if w.Written? then old(seen).(messages := old(seen).messages[id := m]) else old(seen)
    {
      if !Storable(m.title) || !Storable(m.content) {
        return Failed;
      }
      if m.authorId !in seen.authors {
        return Refused;
      }
      seen := seen.(messages := seen.messages[id := m]);
      w := Written;
    }

    /** UPDATE messages ... WHERE id AND version; the new version must fit its column. */
    method UpdateMessageAt(id: Id, edit: Edit) returns (w: Written)
      modifies `seen
      ensures w == if !StorableEdit(edit) then Failed
                   else if id !in old(seen).messages || old(seen).messages[id].version != edit.version then NoMatch
                   else if edit.version == MAX_INT4 then Failed
                   else Written
      ensures seen == if w.Written?
                      then old(seen).(messages := old(seen).messages[id := Edited(old(seen).messages[id], edit)])
                      else old(seen)
    {
      if !StorableEdit(edit) {
        return Failed;
      }
      if id !in seen.messages || seen.messages[id].version != edit.version {
        return NoMatch;
      }
      if edit.version == MAX_INT4 {
        return Failed;
      }
      var m := seen.messages[id];
      m := m.(content := edit.content, version := m.version + 1);
      if edit.title.Some? {
        m := m.(title := edit.title.value);
      }
      seen := seen.(messages := seen.messages[id := m]);
      w := Written;
    }

    method DeleteMessage(id: Id) returns (w: Written)
      modifies `seen
      ensures w == if id in old(seen).messages then Written else NoMatch
      ensures seen == old(seen).(messages := old(seen).messages - {id})
    {
      w := if id in seen.messages then Written else NoMatch;
      seen := seen.(messages := seen.messages - {id});
    }

    /** INSERT INTO authors; the unique index refuses a taken email. */
    method InsertAuthor(id: Id, a: Author) returns (w: Written)
      modifies `seen
      ensures w == if !Storable(a.name) || !Storable(a.email) then Failed
                   else if EmailTaken(old(seen).authors, a.email) then Refused
                   else Written
      ensures seen == if w.Written? then old(seen).(authors := old(seen).authors[id := a]) else old(seen)
    {
      if !Storable(a.name) || !Storable(a.email) {
        return Failed;
      }
      if EmailTaken(seen.authors, a.email) {
        return Refused;
      }
      seen := seen.(authors := seen.authors[id := a]);
      w := Written;
    }

    /** UPDATE authors ... RETURNING; the unique index looks at the other rows. */
    method UpdateAuthor(id: Id, name: Option<string>, email: Option<string>) returns (w: Written)
      modifies `seen
      ensures w == if !StorableOption(name) || !StorableOption(email) then Failed
                   else if id !in old(seen).authors then NoMatch
                   else if email.Some? && EmailTaken(old(seen).authors - {id}, email.value) then Refused
                   else Written
      ensures seen == if w.Written?
                      then old(seen).(authors := old(seen).authors[id := Changed(old(seen).authors[id], name, email)])
                      else old(seen)
    {
      if !StorableOption(name) || !StorableOption(email) {
        return Failed;
      }
      if id !in seen.authors {
        return NoMatch;
      }
      var a := seen.authors[id];
      if name.Some? {
        a := a.(name := name.value);
      }
      if email.Some? {
        if EmailTaken(seen.authors - {id}, email.value) {
          return Refused;
        }
        a := a.(email := email.value);
      }
      seen := seen.(authors := seen.authors[id := a]);
      w := Written;
    }

    /** DELETE FROM authors; RESTRICT refuses an author that messages refer to. */
    method DeleteAuthor(id: Id) returns (w: Written)
      modifies `seen
      ensures w == if id !in old(seen).authors then NoMatch
                   else if Referenced(old(seen), id) then Refused
                   else Written
      ensures seen == if w.Written? then old(seen).(authors := old(seen).authors - {id}) else old(seen)
    {
      if id !in seen.authors {
        return NoMatch;
      }
      if Referenced(seen, id) {
        return Refused;
      }
      seen := seen.(authors := seen.authors - {id});
      w := Written;
    }
  }

  /** The one map all pods share; entries stay until they are evicted. */
  class HazelcastCache {
    var entries: Entries

    constructor ()
      ensures entries == map[]
    {
      entries := map[];
    }

    method Get(id: Id) returns (cached: Option<MessageOut>)
      ensures cached == if id in entries then Some(entries[id]) else None
    {
      cached := if id in entries then Some(entries[id]) else None;
    }

    method Set(id: Id, value: MessageOut)
      modifies this
      ensures entries == old(entries)[id := value]
    {
      entries := entries[id := value];
    }

    method Evict(id: Id)
      modifies this
      ensures entries == old(entries) - {id}
    {
      entries := entries - {id};
    }
  }

  // ---- messages ----------------------------------------------------------------------------

  method GetMessage(session: Session, cache: HazelcastCache, id: Id) returns (reply: Reply)
    modifies session, cache
    ensures session.seen == old(session.seen) && session.committed == old(session.committed)
    ensures Outcome(session.seen, reply) ==
            Answer(old(session.seen), old(cache.entries), Request.GetMessage(id), Draw(0, 0))
    ensures cache.entries == EntriesAfter(old(session.seen), old(cache.entries), Request.GetMessage(id))
  {
    var cached := cache.Get(id);
    if cached.Some? {
      return Reply(200, TheMessage(cached.value));
    }
    var row := session.LoadMessage(id);
    match row {
      case NoRow => reply := Reply(404, Nothing);
      case NoAuthor => reply := Reply(500, Nothing);
      case Found(message) =>
        cache.Set(id, message);
        reply := Reply(200, TheMessage(message));
    }
  }

  /** `meanwhile` is what has been committed when the insert runs: another request may have deleted
      the author since the look-up, and then the foreign key refuses the insert; nobody changes when
      it was created. The answer shows the author as it was looked up. */
  method CreateMessage(session: Session, title: string, content: string, authorId: Id, d: Draw, meanwhile: Tables)
    returns (reply: Reply)
    requires session.seen == session.committed
    requires authorId in session.committed.authors && authorId in meanwhile.authors ==>
               meanwhile.authors[authorId].createdAt == session.committed.authors[authorId].createdAt
    modifies session
    ensures session.seen == session.committed
    ensures authorId !in old(session.committed).authors ==>
              Outcome(session.committed, reply) == Refuse(old(session.committed), 404)
    ensures authorId in old(session.committed).authors && !(Storable(title) && Storable(content)) ==>
              Outcome(session.committed, reply) == Refuse(meanwhile, 500)
    ensures authorId in old(session.committed).authors && Storable(title) && Storable(content) ==>
              var o := ExecCreateMessage(meanwhile, title, content, authorId, d);
              session.committed == o.tables && SameAnswer(reply, o.reply)
    ensures meanwhile == old(session.committed) ==>
              Outcome(session.committed, reply) ==
              ExecCreateMessage(old(session.committed), title, content, authorId, d)
  {
    var author := session.FindAuthor(authorId);
    if author.None? {
      return Reply(404, Nothing);
    }
    session.OthersCommit(meanwhile);
    var m := Message(title, content, authorId, d.now, 0);
    var w := session.InsertMessage(d.newId, m);
    if !w.Written? {
      session.Rollback();
      return Reply(if w.Refused? then 404 else 500, Nothing);
    }
    session.Commit();
    reply := Reply(201, TheMessage(MessageView(d.newId, m, AuthorView(authorId, author.value))));
  }

  method UpdateMessage(session: Session, cache: HazelcastCache, id: Id, edit: Edit) returns (reply: Reply)
    requires session.seen == session.committed
    modifies session, cache
    ensures session.seen == session.committed
    ensures Outcome(session.committed, reply) == ExecUpdateMessage(old(session.committed), id, edit)
    ensures cache.entries == EntriesAfter(old(session.committed), old(cache.entries), Request.UpdateMessage(id, edit))
  {
    var w := session.UpdateMessageAt(id, edit);
    if w.NoMatch? {
      session.Rollback();
      cache.Evict(id);
      var row := session.LoadMessage(id);
      return Reply(if row.NoRow? then 404 else 409, Nothing);
    }
    if w.Failed? {
      session.Rollback();
      return Reply(500, Nothing);
    }
    var row := session.LoadMessage(id);
    if !row.Found? {
      session.Rollback();
      return Reply(500, Nothing);
    }
    session.Commit();
    cache.Evict(id);
    reply := Reply(200, TheMessage(row.message));
  }

  method DeleteMessage(session: Session, cache: HazelcastCache, id: Id) returns (reply: Reply)
    requires session.seen == session.committed
    modifies session, cache
    ensures session.seen == session.committed
    ensures Outcome(session.committed, reply) == ExecDeleteMessage(old(session.committed), id)
    ensures cache.entries == EntriesAfter(old(session.committed), old(cache.entries), Request.DeleteMessage(id))
  {
    var w := session.DeleteMessage(id);
    session.Commit();
    cache.Evict(id);
    reply := Reply(if w.Written? then 204 else 404, Nothing);
  }

  // ---- authors -----------------------------------------------------------------------------

  method CreateAuthor(session: Session, name: string, email: string, d: Draw) returns (reply: Reply)
    requires session.seen == session.committed
    modifies session
    ensures session.seen == session.committed
    ensures Outcome(session.committed, reply) == ExecCreateAuthor(old(session.committed), name, email, d)
  {
    var a := Author(name, email, d.now);
    var w := session.InsertAuthor(d.newId, a);
    if !w.Written? {
      session.Rollback();
      return Reply(if w.Refused? then 409 else 500, Nothing);
    }
    session.Commit();
    reply := Reply(201, TheAuthor(AuthorView(d.newId, a)));
  }

  /** With nothing to change the author is only looked up. */
  method UpdateAuthor(session: Session, id: Id, name: Option<string>, email: Option<string>) returns (reply: Reply)
    requires session.seen == session.committed
    modifies session
    ensures session.seen == session.committed
    ensures Outcome(session.committed, reply) == ExecUpdateAuthor(old(session.committed), id, name, email)
  {
    if name.None? && email.None? {
      var author := session.FindAuthor(id);
      if author.None? {
        return Reply(404, Nothing);
      }
      assert session.seen.authors[id := author.value] == session.seen.authors;
      return Reply(200, TheAuthor(AuthorView(id, author.value)));
    }
    var w := session.UpdateAuthor(id, name, email);
    match w {
      case Refused =>
        session.Rollback();
        reply := Reply(409, Nothing);
      case Failed =>
        session.Rollback();
        reply := Reply(500, Nothing);
      case NoMatch => reply := Reply(404, Nothing);
      case Written =>
        var author := session.seen.authors[id];
        session.Commit();
        reply := Reply(200, TheAuthor(AuthorView(id, author)));
    }
  }

  method DeleteAuthor(session: Session, id: Id) returns (reply: Reply)
    requires session.seen == session.committed
    modifies session
    ensures session.seen == session.committed
    ensures Outcome(session.committed, reply) == ExecDeleteAuthor(old(session.committed), id)
  {
    var w := session.DeleteAuthor(id);
    if w.Refused? {
      session.Rollback();
      return Reply(409, Nothing);
    }
    session.Commit();
    reply := Reply(if w.Written? then 204 else 404, Nothing);
  }

  /** A request as it arrives: validation, then its handler. */
  method Handle(session: Session, cache: HazelcastCache, r: Request, d: Draw) returns (reply: Reply)
    requires session.seen == session.committed
    modifies session, cache
    ensures session.seen == session.committed
    ensures CachedServe(old(session.committed), old(cache.entries), r, d) ==
            Served(session.committed, cache.entries, reply)
  {
    var clean := CleanRequest(r);
    if clean.None? {
      return Reply(400, Nothing);
    }
    match clean.value {
      case GetMessage(id) => reply := GetMessage(session, cache, id);
      case CreateMessage(title, content, authorId) =>
        reply := CreateMessage(session, title, content, authorId, d, session.committed);
      case UpdateMessage(id, edit) => reply := UpdateMessage(session, cache, id, edit);
      case DeleteMessage(id) => reply := DeleteMessage(session, cache, id);
      case CreateAuthor(name, email) => reply := CreateAuthor(session, name, email, d);
      case UpdateAuthor(id, name, email) => reply := UpdateAuthor(session, id, name, email);
      case DeleteAuthor(id) => reply := DeleteAuthor(session, id);
    }
  }

  // ---- the cached service against the one without a cache ----------------------------------

  datatype Served = Served(tables: Tables, entries: Entries, reply: Reply)

  function CachedServe(t: Tables, entries: Entries, r: Request, d: Draw): Served {
    match CleanRequest(r)
    case None => Served(t, entries, Reply(400, Nothing))
    case Some(clean) =>
      var o := Answer(t, entries, clean, d);
      Served(o.tables, EntriesAfter(t, entries, clean), o.reply)
  }

  datatype Arrival = Arrival(request: Request, draw: Draw)

  /** A run of whole requests, one after the other. */
  function CachedRun(t: Tables, entries: Entries, rs: seq<Arrival>): (run: seq<Served>)
    ensures |run| == |rs|
    decreases |rs|
  {
    if rs == [] then []
    else
      var first := CachedServe(t, entries, rs[0].request, rs[0].draw);
      [first] + CachedRun(first.tables, first.entries, rs[1..])
  }

  function PlainRun(t: Tables, rs: seq<Arrival>): (run: seq<Outcome>)
    ensures |run| == |rs|
    decreases |rs|
  {
    if rs == [] then []
    else
      var first := Serve(t, rs[0].request, rs[0].draw);
      [first] + PlainRun(first.tables, rs[1..])
  }

  /** Every insert of the run draws an id that is not in use then. */
  predicate FreshRun(t: Tables, rs: seq<Arrival>)
    decreases |rs|
  {
    rs == [] ||
    (Fresh(t, rs[0].request, rs[0].draw) &&
     FreshRun(Serve(t, rs[0].request, rs[0].draw).tables, rs[1..]))
  }

  /** Every cached copy is that of the row as it is now, up to the author's name and email. */
  predicate Coherent(t: Tables, entries: Entries) {
    forall m | m in entries :: Load(t, m).Found? && SameMessage(entries[m], Load(t, m).message)
  }

  predicate Exact(t: Tables, entries: Entries) {
    forall m | m in entries :: Load(t, m) == Found(entries[m])
  }

  lemma FreshSurvivesCleaning(t: Tables, r: Request, d: Draw)
    requires Fresh(t, r, d) && CleanRequest(r).Some?
    ensures Fresh(t, CleanRequest(r).value, d)
  {
  }

  /** What one request does to the row behind a cached copy that it does not evict. */
  lemma RowStays(t: Tables, r: Request, d: Draw, m: Id)
    requires Sound(t) && Fresh(t, r, d) && ValidRequest(r) && Load(t, m).Found?
    requires (r.UpdateMessage? || r.DeleteMessage?) ==> r.id != m
    ensures var t' := Exec(t, r, d).tables;
            && Load(t', m).Found?
            && SameMessage(Load(t, m).message, Load(t', m).message)
            && (!r.UpdateAuthor? ==> Load(t', m) == Load(t, m))
  {
    hide ValidAuthor, ValidMessage, ValidRequest, UniqueEmails, EmailTaken;
    assert Sound(t) ==> AuthorsExist(t);
    if r.DeleteAuthor? && r.id == t.messages[m].authorId {
      assert Referenced(t, r.id);
    }
  }

  lemma StillCoherent(t: Tables, entries: Entries, r: Request, d: Draw)
    requires Sound(t) && Fresh(t, r, d) && ValidRequest(r) && Coherent(t, entries)
    ensures var t', entries' := Exec(t, r, d).tables, EntriesAfter(t, entries, r);
            Coherent(t', entries') && (Exact(t, entries) && !r.UpdateAuthor? ==> Exact(t', entries'))
  {
    hide Sound, ValidRequest, Fresh;
    var t', entries' := Exec(t, r, d).tables, EntriesAfter(t, entries, r);
    forall m | m in entries'
      ensures Load(t', m).Found? && SameMessage(entries'[m], Load(t', m).message)
      ensures Exact(t, entries) && !r.UpdateAuthor? ==> Load(t', m) == Found(entries'[m])
    {
      EntryFollows(t, entries, r, d, m);
    }
  }

  lemma EntryFollows(t: Tables, entries: Entries, r: Request, d: Draw, m: Id)
    requires Sound(t) && Fresh(t, r, d) && ValidRequest(r) && Coherent(t, entries)
    requires m in EntriesAfter(t, entries, r)
    ensures var t', entry := Exec(t, r, d).tables, EntriesAfter(t, entries, r)[m];
            && Load(t', m).Found? && SameMessage(entry, Load(t', m).message)
            && (Exact(t, entries) && !r.UpdateAuthor? ==> Load(t', m) == Found(entry))
  {
    if r.UpdateMessage? && r.id == m {
      ExecKeepsSound(t, r, d);
      assert Exec(t, r, d).tables == t;
    } else {
      hide Sound, ValidRequest, Fresh, Exec;
      GetKeepsTables(t, r, d);
      RowStays(t, r, d, m);
    }
  }

  lemma GetKeepsTables(t: Tables, r: Request, d: Draw)
    ensures r.GetMessage? ==> Exec(t, r, d).tables == t
  {
  }

  lemma AnswersAgree(t: Tables, entries: Entries, r: Request, d: Draw)
    requires Coherent(t, entries)
    ensures var a, o := Answer(t, entries, r, d), Exec(t, r, d);
            a.tables == o.tables && SameAnswer(a.reply, o.reply)
  {
  }

  lemma ServedAgree(t: Tables, entries: Entries, r: Request, d: Draw)
    requires Sound(t) && Fresh(t, r, d) && Coherent(t, entries)
    ensures var a, o := CachedServe(t, entries, r, d), Serve(t, r, d);
            && Sound(o.tables) && a.tables == o.tables && SameAnswer(a.reply, o.reply)
            && Coherent(a.tables, a.entries)
  {
    hide Sound, Coherent, Exact, Exec, Fresh, EntriesAfter, Answer, SameAnswer, CleanRequest;
    ServeKeepsSound(t, r, d);
    CleanRequestIsValid(r);
    if CleanRequest(r).Some? {
      var clean := CleanRequest(r).value;
      FreshSurvivesCleaning(t, r, d);
      AnswersAgree(t, entries, clean, d);
      StillCoherent(t, entries, clean, d);
    } else {
      SameIsReflexive(Reply(400, Nothing));
    }
  }

  /** For every sequence of whole requests the cached service leaves the same tables as the
      service without a cache and gives the same answers, up to the author's name and email in a
      message. */
  lemma {:induction false} CachedRefinesPlain(t: Tables, entries: Entries, rs: seq<Arrival>)
    requires Sound(t) && Coherent(t, entries) && FreshRun(t, rs)
    ensures var cached, plain := CachedRun(t, entries, rs), PlainRun(t, rs);
            forall i | 0 <= i < |rs| ::
              && cached[i].tables == plain[i].tables
              && SameAnswer(cached[i].reply, plain[i].reply)
              && Coherent(cached[i].tables, cached[i].entries)
              && Sound(plain[i].tables)
    decreases |rs|
  {
    hide Sound, Coherent, CachedServe, Serve, Fresh, SameAnswer;
    if rs != [] {
      var r, d, rest := rs[0].request, rs[0].draw, rs[1..];
      ServedAgree(t, entries, r, d);
      var first := CachedServe(t, entries, r, d);
      CachedRefinesPlain(first.tables, first.entries, rest);
      assert CachedRun(t, entries, rs) == [first] + CachedRun(first.tables, first.entries, rest);
      assert PlainRun(t, rs) == [Serve(t, r, d)] + PlainRun(first.tables, rest);
    }
  }

  lemma UpdatedName(t: Tables, m: Id, name: string)
    requires AuthorsExist(t) && m in t.messages && Storable(name)
    ensures Load(t, m).Found? && Load(t, m).message.author.name == t.authors[t.messages[m].authorId].name
    ensures var o := Exec(t, Request.UpdateAuthor(t.messages[m].authorId, Some(name), None), Draw(0, 0));
            && Load(o.tables, m).Found? && Load(o.tables, m).message.author.name == name
    ensures forall t', d :: Load(t', m).Found? ==>
              Exec(t', Request.GetMessage(m), d) == Outcome(t', Reply(200, TheMessage(Load(t', m).message)))
  {
    hide Storable;
  }

  lemma ThreeRequests(t: Tables, entries: Entries, a: Arrival, b: Arrival, c: Arrival)
    ensures var c1 := CachedServe(t, entries, a.request, a.draw);
            var c2 := CachedServe(c1.tables, c1.entries, b.request, b.draw);
            CachedRun(t, entries, [a, b, c]) == [c1, c2, CachedServe(c2.tables, c2.entries, c.request, c.draw)]
    ensures var p1 := Serve(t, a.request, a.draw);
            var p2 := Serve(p1.tables, b.request, b.draw);
            PlainRun(t, [a, b, c]) == [p1, p2, Serve(p2.tables, c.request, c.draw)]
  {
    hide CachedServe, Serve;
    assert [a, b, c][1..] == [b, c] && [b, c][1..] == [c];
    var c1, p1 := CachedServe(t, entries, a.request, a.draw), Serve(t, a.request, a.draw);
    var c2, p2 := CachedServe(c1.tables, c1.entries, b.request, b.draw), Serve(p1.tables, b.request, b.draw);
    assert CachedRun(c2.tables, c2.entries, [c]) == [CachedServe(c2.tables, c2.entries, c.request, c.draw)];
    assert CachedRun(c1.tables, c1.entries, [b, c]) == [c2] + CachedRun(c2.tables, c2.entries, [c]);
    assert PlainRun(p2.tables, [c]) == [Serve(p2.tables, c.request, c.draw)];
    assert PlainRun(p1.tables, [b, c]) == [p2] + PlainRun(p2.tables, [c]);
  }

  /** Why the author's name has to be left out of the comparison: updating an author evicts no
      message, so a read, an author update and a second read answer the old name. */
  lemma OldAuthorNameIsServed(t: Tables, m: Id, name: string)
    requires Sound(t) && m in t.messages && StoredText(name, NAME_MAX)
    requires t.authors[t.messages[m].authorId].name != name
    ensures var author := t.messages[m].authorId;
            var rs := [Arrival(Request.GetMessage(m), Draw(0, 0)),
                       Arrival(Request.UpdateAuthor(author, Some(name), None), Draw(0, 0)),
                       Arrival(Request.GetMessage(m), Draw(0, 0))];
            var cached, plain := CachedRun(t, map[], rs), PlainRun(t, rs);
            && |cached| == |plain| == 3
            && cached[2].reply.payload.TheMessage? && plain[2].reply.payload.TheMessage?
            && cached[2].reply.payload.message.author.name == t.authors[author].name
            && plain[2].reply.payload.message.author.name == name
  {
    var get, rename := Request.GetMessage(m), Request.UpdateAuthor(t.messages[m].authorId, Some(name), None);
    var d := Draw(0, 0);
    CleanRequestIsValid(rename);
    UpdatedName(t, m, name);
    hide CleanRequest, Sound, ValidText, Storable, Exec, CachedRun, PlainRun, Load, AuthorsExist, CachedServe, Serve;
    var copy := Load(t, m).message;
    var after := Exec(t, rename, d).tables;
    ReadServes(t, map[], m, d);
    ReadServes(after, map[m := copy], m, d);
    ReadServes(after, map[], m, d);
    RenameServes(t, map[m := copy], rename, d);
    ThreeRequests(t, map[], Arrival(get, d), Arrival(rename, d), Arrival(get, d));
  }

  lemma ReadServes(t: Tables, entries: Entries, m: Id, d: Draw)
    requires m in entries || Load(t, m).Found?
    ensures var r := Request.GetMessage(m);
            var body := if m in entries then entries[m] else Load(t, m).message;
            && CachedServe(t, entries, r, d) == Served(t, entries[m := body], Reply(200, TheMessage(body)))
            && (Load(t, m).Found? ==>
                  Serve(t, r, d) == Outcome(t, Reply(200, TheMessage(Load(t, m).message))))
  {
    hide Load;
  }

  lemma RenameServes(t: Tables, entries: Entries, r: Request, d: Draw)
    requires r.UpdateAuthor? && CleanRequest(r) == Some(r)
    ensures CachedServe(t, entries, r, d).tables == Serve(t, r, d).tables == Exec(t, r, d).tables
    ensures CachedServe(t, entries, r, d).entries == entries
  {
    hide CleanRequest, Exec;
  }
}
